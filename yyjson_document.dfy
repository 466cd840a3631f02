/** The outgoing JSON document that the payload builders fill in.
    The yyjson wrapper (yyjson_util.h) is not part of this model: a document is
    an ordered list of (key, value) entries, and every Add* call appends one
    entry holding the value as the callee receives it. How the
    library later prints an absent optional is deliberately not modelled. */
module YYJson {

  datatype Option<+T> = None | Some(value: T) {
    /** The carried value, or `default` when there is none (std::optional::value_or). */
    function GetOr(default: T): T {
      match this
      case Some(v) => v
      case None => default
    }
  }

  /** C++ `int`. */
  newtype int32 = x: int | -0x8000_0000 <= x < 0x8000_0000

  /** A value as handed to one of the wrapper's Add* calls. */
  datatype JsonValue =
    | Str(s: string)                 // AddString with a plain string
    | OptStr(os: Option<string>)     // AddString with a std::optional<std::string>
    | Int(i: int32)                  // AddInt with a plain int
    | OptInt(oi: Option<int32>)      // AddInt with a std::optional<int>
    | OptBool(ob: Option<bool>)      // AddBool with a std::optional<bool>
    | EmptyArray                     // CreateArrayEmpty

  datatype Entry = Entry(key: string, value: JsonValue)

  /** The string a callee receives through `s.c_str()`: a NUL-terminated
      `const char *` carries no length, so it ends at the first '\0'. */
  function CStr(s: string): (r: string)
    ensures |r| <= |s| && r == s[..|r|]
    ensures '\0' !in r
    ensures |r| < |s| ==> s[|r|] == '\0'
  {
    if s == [] || s[0] == '\0' then "" else [s[0]] + CStr(s[1..])
  }

  /** A string without '\0' passes through `c_str()` unchanged. */
  lemma CStrWithoutNul(s: string)
    requires '\0' !in s
    ensures CStr(s) == s
  {
  }

  /** The integer an entry carries, if any. */
  function IntOf(v: JsonValue): Option<int32> {
    match v
    case Int(i) => Some(i)
    case OptInt(oi) => oi
    case _ => None
  }

  /** The keys of a document, in the order they were added. */
  function Keys(doc: seq<Entry>): seq<string> {
    seq(|doc|, i requires 0 <= i < |doc| => doc[i].key)
  }

  /** No string occurs twice. */
  predicate Distinct(ks: seq<string>) {
    forall i, j :: 0 <= i < j < |ks| ==> ks[i] != ks[j]
  }

  /** No key is added twice. */
  predicate DistinctKeys(doc: seq<Entry>) {
    Distinct(Keys(doc))
  }

  /** What a reader of the document finds under `key`: the first entry with it. */
  function ValueAt(doc: seq<Entry>, key: string): (r: Option<JsonValue>)
    ensures r.Some? <==> key in Keys(doc)
  {
    if doc == [] then None
    else
      assert Keys(doc) == [doc[0].key] + Keys(doc[1..]);
      if doc[0].key == key then Some(doc[0].value)
      else ValueAt(doc[1..], key)
  }

  /** In a document without repeated keys, every entry is what its key reads back. */
  lemma {:induction false} ValueAtIndex(doc: seq<Entry>, i: nat)
    requires DistinctKeys(doc)
    requires i < |doc|
    ensures ValueAt(doc, doc[i].key) == Some(doc[i].value)
  {
    if i > 0 {
      assert Keys(doc)[0] != Keys(doc)[i];
      assert Keys(doc[1..]) == Keys(doc)[1..];
      ValueAtIndex(doc[1..], i - 1);
    }
  }

  /** The mutable document (YYJsonDocument); only its entry list is modelled. */
  class YYJsonDocument {
    var entries: seq<Entry>

    constructor ()
      ensures entries == []
    {
      entries := [];
    }

    /** CreateDoc: start a fresh, empty root object. */
    method CreateDoc()
      modifies this
      ensures entries == []
    {
      entries := [];
    }

    /** GetMutableRoot: the root object built so far. */
    function GetMutableRoot(): seq<Entry>
      reads this
    {
      entries
    }

    method AddString(key: string, s: string)
      modifies this
      ensures entries == old(entries) + [Entry(key, Str(s))]
    {
      entries := entries + [Entry(key, Str(s))];
    }

    method AddOptString(key: string, os: Option<string>)
      modifies this
      ensures entries == old(entries) + [Entry(key, OptStr(os))]
    {
      entries := entries + [Entry(key, OptStr(os))];
    }

    method AddInt(key: string, i: int32)
      modifies this
      ensures entries == old(entries) + [Entry(key, Int(i))]
    {
      entries := entries + [Entry(key, Int(i))];
    }

    method AddOptInt(key: string, oi: Option<int32>)
      modifies this
      ensures entries == old(entries) + [Entry(key, OptInt(oi))]
    {
      entries := entries + [Entry(key, OptInt(oi))];
    }

    method AddOptBool(key: string, ob: Option<bool>)
      modifies this
      ensures entries == old(entries) + [Entry(key, OptBool(ob))]
    {
      entries := entries + [Entry(key, OptBool(ob))];
    }

    method CreateArrayEmpty(key: string)
      modifies this
      ensures entries == old(entries) + [Entry(key, EmptyArray)]
    {
      entries := entries + [Entry(key, EmptyArray)];
    }
  }
}
