/**
 * The parsed configuration tree that the plugin reads (the host's YAML
 * configuration): scalar values, lists, and ordered sections of named entries.
 * The getters follow the host's documented accessor semantics; a path such as
 * "lightning.min" is written as the key list ["lightning", "min"].
 */
module Config {
  import opened Wrappers
  import opened JavaLang

  datatype Value =
    | VNull
    | VString(s: string)
    | VBool(b: bool)
    | VInt(i: int)
    | VDouble(d: real)
    | VList(items: seq<Value>)
    | VMap(entries: seq<(string, Value)>)

  /** A configuration section: its own name and its entries in file order. */
  datatype Section = Section(name: string, entries: seq<(string, Value)>)

  type Path = seq<string>

  /** The value of the first entry called `key`, if any. */
  function Lookup(entries: seq<(string, Value)>, key: string): Option<Value>
  {
    if |entries| == 0 then None
    else if entries[0].0 == key then Some(entries[0].1)
    else Lookup(entries[1..], key)
  }

  /** A lookup succeeds exactly when some entry has the key, and returns the value of the first such entry. */
  lemma {:induction false} LookupFinds(entries: seq<(string, Value)>, key: string)
    ensures Lookup(entries, key).Some? <==> exists i :: 0 <= i < |entries| && entries[i].0 == key
    ensures Lookup(entries, key).Some? ==>
      exists i :: 0 <= i < |entries| && entries[i] == (key, Lookup(entries, key).value) &&
        forall j :: 0 <= j < i ==> entries[j].0 != key
  {
    if |entries| > 0 && entries[0].0 != key {
      LookupFinds(entries[1..], key);
      assert forall i :: 1 <= i < |entries| ==> entries[i] == entries[1..][i - 1];
      if Lookup(entries, key).Some? {
        var i :| 0 <= i < |entries[1..]| && entries[1..][i] == (key, Lookup(entries, key).value) &&
          forall j :: 0 <= j < i ==> entries[1..][j].0 != key;
        assert entries[i + 1] == (key, Lookup(entries, key).value);
        forall j | 0 <= j < i + 1 ensures entries[j].0 != key {
          if j > 0 {
            assert entries[j] == entries[1..][j - 1];
          }
        }
      }
    }
  }

  function GetIn(entries: seq<(string, Value)>, path: Path): Option<Value>
    decreases |path|
  {
    if |path| == 0 then None
    else
      match Lookup(entries, path[0])
      case None => None
      case Some(v) =>
        if |path| == 1 then Some(v)
        else if v.VMap? then GetIn(v.entries, path[1..])
        else None
  }

  /** get(path): an explicit null is the same as an absent entry. */
  function Get(sec: Section, path: Path): (r: Option<Value>)
    ensures r != Some(VNull)
  {
    match GetIn(sec.entries, path)
    case Some(VNull) => None
    case r => r
  }

  /** The keys of the section, in file order (getKeys(false)). */
  function Keys(sec: Section): (ks: seq<string>)
    ensures |ks| == |sec.entries|
  {
    seq(|sec.entries|, i requires 0 <= i < |sec.entries| => sec.entries[i].0)
  }

  predicate IsSet(sec: Section, path: Path) { Get(sec, path).Some? }

  predicate IsList(sec: Section, path: Path) { Get(sec, path).Some? && Get(sec, path).value.VList? }

  predicate IsSection(sec: Section, path: Path) { Get(sec, path).Some? && Get(sec, path).value.VMap? }

  /** getConfigurationSection(path): the child section, or null. */
  function GetSection(sec: Section, path: Path): (r: Option<Section>)
    requires |path| > 0
    ensures r.Some? <==> IsSection(sec, path)
    ensures r.Some? ==> r.value.name == path[|path| - 1]
  {
    match Get(sec, path)
    case Some(VMap(es)) => Some(Section(path[|path| - 1], es))
    case _ => None
  }

  /** getString(path, def); a value that is not a string reads as the default. */
  function GetString(sec: Section, path: Path, def: Option<string>): Option<string>
  {
    match Get(sec, path)
    case Some(VString(s)) => Some(s)
    case _ => def
  }

  /** getBoolean(path, def): the boolean at path, else def. */
  function GetBool(sec: Section, path: Path, def: bool): bool
  {
    match Get(sec, path)
    case Some(VBool(b)) => b
    case _ => def
  }

  /** Number.intValue(): a long wraps to 32 bits, a double is truncated. */
  function NumberToInt(v: Value): Option<Int32>
  {
    match v
    case VInt(i) => Some(Wrap32(i))
    case VDouble(d) => Some(DoubleToInt(d))
    case _ => None
  }

  /** Number.doubleValue(). */
  function NumberToReal(v: Value): Option<real>
  {
    match v
    case VInt(i) => Some(i as real)
    case VDouble(d) => Some(d)
    case _ => None
  }

  /** getInt(path, def): a number at path converted to int, else def. */
  function GetInt(sec: Section, path: Path, def: Int32): Int32
  {
    match Get(sec, path)
    case Some(v) => NumberToInt(v).GetOr(def)
    case None => def
  }

  /** getDouble(path, def): a number at path converted to double, else def. */
  function GetDouble(sec: Section, path: Path, def: real): real
  {
    match Get(sec, path)
    case Some(v) => NumberToReal(v).GetOr(def)
    case None => def
  }

  /**
   * getStringList(path): the list at path, each string kept and each number
   * or boolean written as its text; empty if there is no list.
   */
  function GetStringList(sec: Section, path: Path): seq<string>
  {
    match Get(sec, path)
    case Some(VList(items)) => StringsOf(items)
    case _ => []
  }

  /**
   * The text getStringList keeps for one list element: a string as it is, a
   * boolean or an integer that fits a long as String.valueOf writes it.
   * Larger integers (read as BigInteger), nulls, lists and maps are skipped.
   */
  function ElementString(v: Value): (r: Option<string>)
    ensures r.Some? <==> v.VString? || v.VBool? || (v.VInt? && LONG_MIN <= v.i <= LONG_MAX)
  {
    match v
    case VString(s) => Some(s)
    case VBool(b) => Some(if b then "true" else "false")
    case VInt(i) => if LONG_MIN <= i <= LONG_MAX then Some(LongToString(i)) else None
    case _ => None
  }

  /** A kept element's text determines it: a string is itself, and a number reads back as that number. */
  lemma ElementStringFaithful(v: Value)
    ensures v.VString? ==> ElementString(v) == Some(v.s)
    ensures v.VInt? && LONG_MIN <= v.i <= LONG_MAX ==>
      ElementString(v).Some? && ParseLong(ElementString(v).value) == v.i
    ensures v.VBool? ==> ElementString(v) == Some(if v.b then "true" else "false")
  {
    if v.VInt? && LONG_MIN <= v.i <= LONG_MAX {
      LongToStringRoundTrip(v.i);
    }
  }

  function StringsOf(items: seq<Value>): (r: seq<string>)
    ensures |r| <= |items|
  {
    if |items| == 0 then []
    else
      (match ElementString(items[0]) case Some(t) => [t] case None => []) + StringsOf(items[1..])
  }

  /** The list keeps exactly the texts of the elements that have one, in order. */
  lemma {:induction false} StringsOfKept(items: seq<Value>)
    ensures forall i :: 0 <= i < |items| && ElementString(items[i]).Some? ==> ElementString(items[i]).value in StringsOf(items)
    ensures forall t :: t in StringsOf(items) ==> exists i :: 0 <= i < |items| && ElementString(items[i]) == Some(t)
    ensures (forall i :: 0 <= i < |items| ==> ElementString(items[i]).Some?) ==> |StringsOf(items)| == |items|
  {
    if |items| > 0 {
      StringsOfKept(items[1..]);
      assert forall i :: 1 <= i < |items| ==> items[i] == items[1..][i - 1];
      forall t | t in StringsOf(items)
        ensures exists i :: 0 <= i < |items| && ElementString(items[i]) == Some(t)
      {
        if t !in StringsOf(items[1..]) {
          assert ElementString(items[0]) == Some(t);
        } else {
          var j :| 0 <= j < |items[1..]| && ElementString(items[1..][j]) == Some(t);
          assert ElementString(items[j + 1]) == Some(t);
        }
      }
    }
  }

  /** getMapList(path): the map entries of the list at path; empty if there is no list. */
  function GetMapList(sec: Section, path: Path): seq<seq<(string, Value)>>
  {
    match Get(sec, path)
    case Some(VList(items)) => MapsOf(items)
    case _ => []
  }

  function MapsOf(items: seq<Value>): seq<seq<(string, Value)>>
  {
    if |items| == 0 then []
    else (if items[0].VMap? then [items[0].entries] else []) + MapsOf(items[1..])
  }
}
