/**
 * ConfigMap: typed lookups in one map entry of a configuration list.
 * The generic lookup checks the class of the value and logs a warning when it
 * does not match, but still returns the stored value; the typed getters then
 * cast it, so a wrongly typed value surfaces as a ClassCastException.
 */
module ConfigMaps {
  import opened Wrappers
  import opened JavaLang
  import opened Config

  /** The classes passed to the generic lookup. */
  datatype JClass = StringClass | BooleanClass | IntegerClass | NumberClass | ListClass

  /** cls.isAssignableFrom(value.getClass()) */
  predicate InstanceOf(v: Value, cls: JClass)
  {
    match cls
    case StringClass => v.VString?
    case BooleanClass => v.VBool?
    case IntegerClass => v.VInt? && INT_MIN <= v.i <= INT_MAX
    case NumberClass => v.VInt? || v.VDouble?
    case ListClass => v.VList?
  }

  /** The map of one list entry and the context named in warnings. */
  datatype ConfigMap = ConfigMap(entries: seq<(string, Value)>, context: string)

  /** What the generic lookup returns (None for null) and whether it logged a warning. */
  datatype Fetched = Fetched(value: Option<Value>, warned: bool)

  /** _map.get(name), with a stored null read as null. */
  function Raw(m: ConfigMap, name: string): (r: Option<Value>)
    ensures r != Some(VNull)
  {
    match Lookup(m.entries, name)
    case Some(VNull) => None
    case r => r
  }

  /** The generic lookup `get(name, def, cls)`. */
  function Get(m: ConfigMap, name: string, def: Option<Value>, cls: JClass): (r: Fetched)
    requires def != Some(VNull)
    // A missing or null entry yields the default.
    ensures Raw(m, name).None? ==> r.value == def
    // A present entry is returned as stored, even with the wrong class: the
    // warning says "Using default" but the default is not used.
    ensures Raw(m, name).Some? ==> r.value == Raw(m, name)
    ensures r.value != Some(VNull)
    // A warning is logged exactly when the result is non-null and of the wrong class.
    ensures r.warned <==> r.value.Some? && !InstanceOf(r.value.value, cls)
  {
    var value := if Raw(m, name).None? then def else Raw(m, name);
    Fetched(value, value.Some? && !InstanceOf(value.value, cls))
  }

  /** getString: the erased generic result is cast to String by the caller. */
  function GetString(m: ConfigMap, name: string, def: Option<string>): (r: Result<Option<string>, Exception>)
    ensures Raw(m, name).None? ==> r == Ok(def)
    ensures Raw(m, name).Some? ==>
      (r.Ok? <==> Raw(m, name).value.VString?) &&
      (r.Ok? ==> r.value == Some(Raw(m, name).value.s))
  {
    var f := Get(m, name, if def.Some? then Some(VString(def.value)) else None, StringClass);
    match f.value
    case None => Ok(None)
    case Some(VString(s)) => Ok(Some(s))
    case Some(_) => Err(ClassCast)
  }

  /** getBoolean. */
  function GetBoolean(m: ConfigMap, name: string, def: Option<bool>): (r: Result<Option<bool>, Exception>)
    ensures Raw(m, name).None? ==> r == Ok(def)
    ensures Raw(m, name).Some? ==>
      (r.Ok? <==> Raw(m, name).value.VBool?) &&
      (r.Ok? ==> r.value == Some(Raw(m, name).value.b))
  {
    var f := Get(m, name, if def.Some? then Some(VBool(def.value)) else None, BooleanClass);
    match f.value
    case None => Ok(None)
    case Some(VBool(b)) => Ok(Some(b))
    case Some(_) => Err(ClassCast)
  }

  /** getInteger: only a value that fits a Java int is an Integer. */
  function GetInteger(m: ConfigMap, name: string, def: Option<Int32>): (r: Result<Option<Int32>, Exception>)
    ensures Raw(m, name).None? ==> r == Ok(def)
    ensures Raw(m, name).Some? ==>
      (r.Ok? <==> InstanceOf(Raw(m, name).value, IntegerClass)) &&
      (r.Ok? ==> r.value == Some(Raw(m, name).value.i))
  {
    var f := Get(m, name, if def.Some? then Some(VInt(def.value)) else None, IntegerClass);
    match f.value
    case None => Ok(None)
    case Some(v) => if InstanceOf(v, IntegerClass) then Ok(Some(v.i)) else Err(ClassCast)
  }

  /** getDouble: any Number is accepted and converted with doubleValue(). */
  function GetDouble(m: ConfigMap, name: string, def: Option<real>): (r: Result<Option<real>, Exception>)
    // null in, null out.
    ensures r.Ok? && r.value.None? <==> Raw(m, name).None? && def.None?
    ensures Raw(m, name).None? && def.Some? ==> r == Ok(def)
    ensures Raw(m, name).Some? ==>
      (r.Ok? <==> InstanceOf(Raw(m, name).value, NumberClass)) &&
      (r.Ok? ==> r.value == NumberToReal(Raw(m, name).value))
  {
    var f := Get(m, name, if def.Some? then Some(VDouble(def.value)) else None, NumberClass);
    match f.value
    case None => Ok(None)
    case Some(v) => if InstanceOf(v, NumberClass) then Ok(NumberToReal(v)) else Err(ClassCast)
  }

  /** getNumberList: any list is accepted; its elements are not checked. */
  function GetNumberList(m: ConfigMap, name: string, def: Option<seq<Value>>): (r: Result<Option<seq<Value>>, Exception>)
    ensures Raw(m, name).None? ==> r == Ok(def)
    ensures Raw(m, name).Some? ==>
      (r.Ok? <==> Raw(m, name).value.VList?) &&
      (r.Ok? ==> r.value == Some(Raw(m, name).value.items))
  {
    var f := Get(m, name, if def.Some? then Some(VList(def.value)) else None, ListClass);
    match f.value
    case None => Ok(None)
    case Some(VList(items)) => Ok(Some(items))
    case Some(_) => Err(ClassCast)
  }

  /** A lookup that warns is one whose typed getter throws: the logged "Using default" never happens. */
  lemma WarningMeansClassCast(m: ConfigMap, name: string, def: Option<string>)
    requires Get(m, name, if def.Some? then Some(VString(def.value)) else None, StringClass).warned
    ensures GetString(m, name, def).Err?
  {
  }
}
