/** Presence and activity payloads of the Discord gateway: the status strings,
    the numeric activity codes and flags, and the builders that choose the keys
    and values of the outgoing presence-update JSON (src/discord/activity.hpp). */
module Activity {
  import opened YYJson

  // ---------------------------------------------------------------------------
  // Presence status and its two string forms
  // ---------------------------------------------------------------------------

  /** C++ `uint8_t`. */
  newtype uint8 = x: int | 0 <= x < 0x100

  /** enum class PresenceStatus : uint8_t, enumerators numbered 0..3 in order. */
  datatype PresenceStatus = Online | Offline | Idle | DND {
    /** The uint8_t value the enumerator is stored as. */
    function Code(): (c: uint8)
      ensures c < 4
    {
      match this
      case Online => 0
      case Offline => 1
      case Idle => 2
      case DND => 3
    }
  }

  /** The enumerator a stored uint8_t value stands for, if any. */
  function PresenceStatusOfCode(c: uint8): (r: Option<PresenceStatus>)
    ensures r.Some? <==> c < 4
    ensures r.Some? ==> r.value.Code() == c
  {
    if c == 0 then Some(Online)
    else if c == 1 then Some(Offline)
    else if c == 2 then Some(Idle)
    else if c == 3 then Some(DND)
    else None
  }

  /** GetPresenceString: the wire form of a status. No enumerator reaches the
      "" fallback. */
  function GetPresenceString(s: PresenceStatus): (r: string)
    ensures r != ""
  {
    match s
    case Online => "online"
    case Offline => "offline"
    case Idle => "idle"
    case DND => "dnd"
  }

  /** GetPresenceDisplayString: the label shown in the user interface. No
      enumerator reaches the "" fallback. */
  function GetPresenceDisplayString(s: PresenceStatus): (r: string)
    ensures r != ""
  {
    match s
    case Online => "Online"
    case Offline => "Offline"
    case Idle => "Away"
    case DND => "Do Not Disturb"
  }

  /** The switch of GetPresenceString run on the stored byte: a value outside
      the four enumerators falls through to the "" fallback. */
  function PresenceStringOfCode(c: uint8): (r: string)
    ensures r == "" <==> c >= 4
    ensures c < 4 ==> r == GetPresenceString(PresenceStatusOfCode(c).value)
  {
    match PresenceStatusOfCode(c)
    case Some(s) => GetPresenceString(s)
    case None => ""
  }

  /** The same for GetPresenceDisplayString. */
  function PresenceDisplayStringOfCode(c: uint8): (r: string)
    ensures r == "" <==> c >= 4
    ensures c < 4 ==> r == GetPresenceDisplayString(PresenceStatusOfCode(c).value)
  {
    match PresenceStatusOfCode(c)
    case Some(s) => GetPresenceDisplayString(s)
    case None => ""
  }

  /** Reading a wire status string back: the inverse of GetPresenceString. */
  function PresenceStatusOfString(str: string): (r: Option<PresenceStatus>)
  {
    if str == "online" then Some(Online)
    else if str == "offline" then Some(Offline)
    else if str == "idle" then Some(Idle)
    else if str == "dnd" then Some(DND)
    else None
  }

  /** The wire string of every status reads back as that status, and only the
      four wire strings read back at all. */
  lemma PresenceStringRoundTrip(s: PresenceStatus, str: string)
    ensures PresenceStatusOfString(GetPresenceString(s)) == Some(s)
    ensures PresenceStatusOfString(str) == Some(s) <==> str == GetPresenceString(s)
  {
  }

  /** Distinct statuses are sent as distinct strings. */
  lemma PresenceStringInjective(s: PresenceStatus, t: PresenceStatus)
    ensures GetPresenceString(s) == GetPresenceString(t) <==> s == t
  {
  }

  /** Distinct statuses are shown with distinct labels. */
  lemma PresenceDisplayStringInjective(s: PresenceStatus, t: PresenceStatus)
    ensures GetPresenceDisplayString(s) == GetPresenceDisplayString(t) <==> s == t
  {
  }

  // ---------------------------------------------------------------------------
  // Activity types and flags
  // ---------------------------------------------------------------------------

  /** enum class ActivityType : int. */
  datatype ActivityType = Game | Streaming | Listening | Watching | Custom | Competing {
    /** The code sent as "type": `(int)Type`. */
    function Code(): (c: int32)
      ensures 0 <= c <= 5
    {
      match this
      case Game => 0
      case Streaming => 1
      case Listening => 2
      case Watching => 3
      case Custom => 4
      case Competing => 5
    }
  }

  /** The activity type a received "type" code stands for, if any. */
  function ActivityTypeOfCode(c: int32): (r: Option<ActivityType>)
    ensures r.Some? <==> 0 <= c <= 5
  {
    if c == 0 then Some(Game)
    else if c == 1 then Some(Streaming)
    else if c == 2 then Some(Listening)
    else if c == 3 then Some(Watching)
    else if c == 4 then Some(Custom)
    else if c == 5 then Some(Competing)
    else None
  }

  /** The codes and the types correspond one to one. */
  lemma ActivityTypeCodeRoundTrip(t: ActivityType, c: int32)
    ensures ActivityTypeOfCode(t.Code()) == Some(t)
    ensures ActivityTypeOfCode(c) == Some(t) <==> c == t.Code()
  {
  }

  /** Distinct activity types are sent with distinct codes. */
  lemma ActivityTypeCodeInjective(t: ActivityType, u: ActivityType)
    ensures t.Code() == u.Code() <==> t == u
  {
  }

  /** enum class ActivityFlags: each enumerator is `1 << k`. */
  datatype ActivityFlags = Instance | Join | Spectate | JoinRequest | Sync | Play {
    /** The bit position k of the enumerator's `1 << k`. */
    function Bit(): (k: nat)
      ensures k < 6
    {
      match this
      case Instance => 0
      case Join => 1
      case Spectate => 2
      case JoinRequest => 3
      case Sync => 4
      case Play => 5
    }

    /** The enumerator's numeric value: exactly one bit, among the low six, is set. */
    function Mask(): (m: bv32)
      ensures m != 0 && m & (m - 1) == 0
      ensures m & !0x3f == 0
    {
      (1 as bv32) << Bit()
    }
  }

  /** The flag a mask stands for, if it is one of the six single-bit masks. */
  function ActivityFlagOfMask(m: bv32): Option<ActivityFlags> {
    if m == 1 then Some(Instance)
    else if m == 2 then Some(Join)
    else if m == 4 then Some(Spectate)
    else if m == 8 then Some(JoinRequest)
    else if m == 16 then Some(Sync)
    else if m == 32 then Some(Play)
    else None
  }

  /** The masks and the flags correspond one to one. */
  lemma ActivityFlagMaskRoundTrip(f: ActivityFlags, m: bv32)
    ensures ActivityFlagOfMask(f.Mask()) == Some(f)
    ensures ActivityFlagOfMask(m) == Some(f) <==> m == f.Mask()
  {
  }

  /** Two different flags share no bit, so they can be combined and told apart. */
  lemma ActivityFlagsDisjoint(f: ActivityFlags, g: ActivityFlags)
    ensures f.Mask() & g.Mask() == 0 <==> f != g
  {
  }

  // ---------------------------------------------------------------------------
  // Activity records
  // ---------------------------------------------------------------------------

  /** snowflake.hpp is not part of this model: a snowflake is an opaque integer. */
  type Snowflake = int

  /** C++ `uint64_t`. */
  newtype uint64 = x: int | 0 <= x < 0x1_0000_0000_0000_0000

  datatype ActivityTimestamps = ActivityTimestamps(Start: Option<int32>, End: Option<int32>)

  datatype ActivityEmoji = ActivityEmoji(Name: string, ID: Option<Snowflake>, IsAnimated: Option<bool>)

  datatype ActivityParty = ActivityParty(ID: Option<string>, Size: Option<(int32, int32)>)

  datatype ActivityAssets = ActivityAssets(
    LargeImage: Option<string>, LargeText: Option<string>,
    SmallImage: Option<string>, SmallText: Option<string>)

  datatype ActivitySecrets = ActivitySecrets(Join: Option<string>, Spectate: Option<string>, Match: Option<string>)

  /** The keys of an activity block, in the order they are written. */
  const ActivityKeys: seq<string> :=
    ["name", "state", "type", "url", "created_at", "timestamps", "application_id",
     "details", "emoji", "party", "assets", "secrets", "instance", "flags"]

  /** The keys, from "url" on, that are all given the activity's URL. */
  const UrlKeys: seq<string> := ActivityKeys[3..]

  /** The "name" and "state" entries an activity block starts with. */
  function ActivityHead(name: string, t: ActivityType, state: Option<string>): seq<Entry> {
    if t == Custom
    then [Entry("name", Str("Custom Status")), Entry("state", Str(name))]
    else [Entry("name", Str(name)), Entry("state", OptStr(state))]
  }

  /** The root object ActivityData::GetDataBlock leaves in its document. It
      depends on the name, the type, the state and the URL only. */
  function ActivityBlock(name: string, t: ActivityType, state: Option<string>, url: Option<string>): seq<Entry> {
    ActivityHead(name, t, state)
    + [Entry("type", Int(t.Code())),
       Entry("url", OptStr(url)), Entry("created_at", OptStr(url)), Entry("timestamps", OptStr(url)),
       Entry("application_id", OptStr(url)), Entry("details", OptStr(url)), Entry("emoji", OptStr(url)),
       Entry("party", OptStr(url)), Entry("assets", OptStr(url)), Entry("secrets", OptStr(url)),
       Entry("instance", OptStr(url)), Entry("flags", OptStr(url))]
  }

  /** Proof step for ActivityData.GetDataBlock: the block regrouped as its head
      followed by twelve single appends, one per Add call, so that the method's
      proof matches each call against one append. */
  lemma ActivityBlockAppends(name: string, t: ActivityType, state: Option<string>, url: Option<string>)
    ensures ActivityBlock(name, t, state, url) ==
      ActivityHead(name, t, state) + [Entry("type", Int(t.Code()))]
      + [Entry("url", OptStr(url))]
      + [Entry("created_at", OptStr(url))]
      + [Entry("timestamps", OptStr(url))]
      + [Entry("application_id", OptStr(url))]
      + [Entry("details", OptStr(url))]
      + [Entry("emoji", OptStr(url))]
      + [Entry("party", OptStr(url))]
      + [Entry("assets", OptStr(url))]
      + [Entry("secrets", OptStr(url))]
      + [Entry("instance", OptStr(url))]
      + [Entry("flags", OptStr(url))]
  {
  }

  /** An activity block holds the fourteen activity keys, each once, in order. */
  lemma ActivityBlockKeys(name: string, t: ActivityType, state: Option<string>, url: Option<string>)
    ensures Keys(ActivityBlock(name, t, state, url)) == ActivityKeys
    ensures DistinctKeys(ActivityBlock(name, t, state, url))
  {
    var b := ActivityBlock(name, t, state, url);
    assert forall i :: 0 <= i < |b| ==> b[i].key == ActivityKeys[i];
    ActivityKeysDistinct();
  }

  /** No activity key is written twice. */
  lemma ActivityKeysDistinct()
    ensures Distinct(ActivityKeys)
  {
  }

  /** What a reader finds in an activity block: a custom status is sent under
      the fixed name "Custom Status" with its own name as the state; any other
      activity sends its name and its state. The type is the numeric code. */
  lemma ActivityBlockNameState(name: string, t: ActivityType, state: Option<string>, url: Option<string>)
    ensures t == Custom ==>
      ValueAt(ActivityBlock(name, t, state, url), "name") == Some(Str("Custom Status")) &&
      ValueAt(ActivityBlock(name, t, state, url), "state") == Some(Str(name))
    ensures t != Custom ==>
      ValueAt(ActivityBlock(name, t, state, url), "name") == Some(Str(name)) &&
      ValueAt(ActivityBlock(name, t, state, url), "state") == Some(OptStr(state))
    ensures ValueAt(ActivityBlock(name, t, state, url), "type") == Some(Int(t.Code()))
  {
    var b := ActivityBlock(name, t, state, url);
    ActivityBlockKeys(name, t, state, url);
    ValueAtIndex(b, 0);
    ValueAtIndex(b, 1);
    ValueAtIndex(b, 2);
  }

  /** Every key from "url" through "flags" carries the activity's URL. */
  lemma ActivityBlockUrlFields(name: string, t: ActivityType, state: Option<string>, url: Option<string>)
    ensures forall j :: 0 <= j < |UrlKeys| ==> ValueAt(ActivityBlock(name, t, state, url), UrlKeys[j]) == Some(OptStr(url))
  {
    var b := ActivityBlock(name, t, state, url);
    ActivityBlockKeys(name, t, state, url);
    forall j | 0 <= j < |UrlKeys|
      ensures ValueAt(b, UrlKeys[j]) == Some(OptStr(url))
    {
      assert b[3 + j] == Entry(UrlKeys[j], OptStr(url));
      ValueAtIndex(b, 3 + j);
    }
  }

  /** ActivityData: an activity with the document its GetDataBlock fills in. */
  class ActivityData {
    var Name: string
    var Type: ActivityType
    var URL: Option<string>
    var CreatedAt: Option<uint64>
    var Timestamps: Option<ActivityTimestamps>
    var ApplicationID: Option<Snowflake>
    var Details: Option<string>
    var State: Option<string>
    var Emoji: Option<ActivityEmoji>
    var Party: Option<ActivityParty>
    var Assets: Option<ActivityAssets>
    var Secrets: Option<ActivitySecrets>
    var IsInstance: Option<bool>
    var Flags: Option<ActivityFlags>
    const yyjsn: YYJsonDocument

    /** The C++ struct is an aggregate with no constructor of its own; this one
        lets a client set the four fields the builder reads and leaves every
        other optional member absent. */
    constructor (name: string, t: ActivityType, url: Option<string>, state: Option<string>)
      ensures Name == name && Type == t && URL == url && State == state
      ensures CreatedAt == None && Timestamps == None && ApplicationID == None && Details == None
      ensures Emoji == None && Party == None && Assets == None && Secrets == None
      ensures IsInstance == None && Flags == None
      ensures fresh(yyjsn)
    {
      Name, Type, URL, State := name, t, url, state;
      CreatedAt, Timestamps, ApplicationID, Details := None, None, None, None;
      Emoji, Party, Assets, Secrets := None, None, None, None;
      IsInstance, Flags := None, None;
      yyjsn := new YYJsonDocument();
    }

    /** Rebuilds the member document from scratch and returns its root; the
        activity's own fields are left as they were. */
    method GetDataBlock() returns (root: seq<Entry>)
      modifies yyjsn
      ensures root == yyjsn.entries
      ensures root == ActivityBlock(Name, Type, State, URL)
    {
      var name, t, state, url := Name, Type, State, URL;
      yyjsn.CreateDoc();
      if t == Custom {
        yyjsn.AddString("name", "Custom Status");
        yyjsn.AddString("state", name);
      } else {
        yyjsn.AddString("name", name);
        yyjsn.AddOptString("state", state);
      }
      assert yyjsn.entries == ActivityHead(name, t, state);

      yyjsn.AddInt("type", t.Code());
      yyjsn.AddOptString("url", url);
      yyjsn.AddOptString("created_at", url);
      yyjsn.AddOptString("timestamps", url);
      yyjsn.AddOptString("application_id", url);
      yyjsn.AddOptString("details", url);
      yyjsn.AddOptString("emoji", url);
      yyjsn.AddOptString("party", url);
      yyjsn.AddOptString("assets", url);
      yyjsn.AddOptString("secrets", url);
      yyjsn.AddOptString("instance", url);
      yyjsn.AddOptString("flags", url);

      ActivityBlockAppends(name, t, state, url);
      root := yyjsn.GetMutableRoot();
    }
  }

  // ---------------------------------------------------------------------------
  // Presence update
  // ---------------------------------------------------------------------------

  /** The keys of a presence block, in the order they are written. */
  const PresenceKeys: seq<string> := ["activities", "status", "afk", "since"]

  /** The root object PresenceData::GetDataBlock builds. The activity list is
      not an argument: it is never sent. The status is handed over as a C
      string, so it is cut at its first '\0'. */
  function PresenceBlock(status: string, afk: Option<bool>, since: Option<int32>): seq<Entry> {
    [Entry("activities", EmptyArray), Entry("status", Str(CStr(status))), Entry("afk", OptBool(afk)),
     if since.Some? then Entry("since", OptInt(since)) else Entry("since", Int(0))]
  }

  /** A presence block holds its four keys, each once, in order. */
  lemma PresenceBlockKeys(status: string, afk: Option<bool>, since: Option<int32>)
    ensures Keys(PresenceBlock(status, afk, since)) == PresenceKeys
    ensures DistinctKeys(PresenceBlock(status, afk, since))
  {
  }

  /** What a reader finds in a presence block: an empty activity array
      whatever activities the presence holds, the status, the AFK flag as
      given, and the given "since" or, when there is none, the integer 0. */
  lemma PresenceBlockValues(status: string, afk: Option<bool>, since: Option<int32>)
    ensures ValueAt(PresenceBlock(status, afk, since), "activities") == Some(EmptyArray)
    ensures ValueAt(PresenceBlock(status, afk, since), "status") == Some(Str(CStr(status)))
    ensures ValueAt(PresenceBlock(status, afk, since), "afk") == Some(OptBool(afk))
    ensures ValueAt(PresenceBlock(status, afk, since), "since") ==
            Some(if since.Some? then OptInt(since) else Int(0))
  {
    var b := PresenceBlock(status, afk, since);
    PresenceBlockKeys(status, afk, since);
    ValueAtIndex(b, 0);
    ValueAtIndex(b, 1);
    ValueAtIndex(b, 2);
    ValueAtIndex(b, 3);
  }

  /** A status without '\0', such as every wire string of a PresenceStatus, is
      sent whole and reads back as the status it came from. */
  lemma PresenceBlockStatusWhole(status: string, afk: Option<bool>, since: Option<int32>)
    requires '\0' !in status
    ensures ValueAt(PresenceBlock(status, afk, since), "status") == Some(Str(status))
    ensures forall s: PresenceStatus :: status == GetPresenceString(s) ==>
      PresenceStatusOfString(ValueAt(PresenceBlock(status, afk, since), "status").value.s) == Some(s)
  {
    PresenceBlockValues(status, afk, since);
    CStrWithoutNul(status);
  }

  /** "since" always carries an integer: the given one, or 0 when absent. */
  lemma PresenceSinceDefault(status: string, afk: Option<bool>, since: Option<int32>)
    ensures ValueAt(PresenceBlock(status, afk, since), "since").Some?
    ensures IntOf(ValueAt(PresenceBlock(status, afk, since), "since").value) == Some(since.GetOr(0))
  {
    PresenceBlockValues(status, afk, since);
  }

  /** PresenceData: the presence-update payload. GetDataBlock is const, so the
      record is a value. */
  datatype PresenceData = PresenceData(
    Activities: seq<ActivityData>,
    Status: string,
    IsAFK: Option<bool>,
    Since: Option<int32>)
  {
    /** Builds the payload in a local document and returns its root. */
    method GetDataBlock() returns (root: seq<Entry>)
      ensures root == PresenceBlock(Status, IsAFK, Since)
    {
      var yyjsn2 := new YYJsonDocument();
      yyjsn2.CreateDoc();

      yyjsn2.CreateArrayEmpty("activities");

      yyjsn2.AddString("status", CStr(Status));
      yyjsn2.AddOptBool("afk", IsAFK);

      if Since.Some? {
        yyjsn2.AddOptInt("since", Since);
      } else {
        yyjsn2.AddInt("since", 0);
      }

      root := yyjsn2.GetMutableRoot();
    }
  }
}
