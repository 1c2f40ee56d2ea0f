/**
  * The msh variable store (src/environment.rs): a table from names to variables, each with
  * a value and an `exported` flag. It starts as a copy of the inherited process environment
  * (all exported) and is changed in place by `assign` and `export`, whose value expressions
  * are expanded against the table as it was before the change.
  *
  * Expansion belongs to the syntax tree and is not part of this model: it is passed in as a
  * function from an unexpanded value expression and a table to an expanded string or an error.
  */
module Environment {

  /** Declared here as well as in `Lexer`: the two source files do not depend on each other. */
  datatype Option<T> = None | Some(value: T)

  /** The outcome of an operation that may fail with an error message. */
  datatype Result<T> = Ok(value: T) | Err(error: string)

  /** A variable: its value and whether it is handed to child processes. */
  datatype Var = Var(value: string, isExported: bool)

  type Table = map<string, Var>

  /** `name=value`, where `value` is an expression of type `E` still to be expanded. */
  datatype NameValuePair<E> = NameValuePair(name: string, value: E)

  /** `export name` or `export name=value`. */
  datatype Exportable<E> = Exportable(name: string, value: Option<E>)

  /**
    * The table built from the inherited `(name, value)` pairs: every pair becomes an exported
    * variable; of two pairs with the same name the later one wins.
    */
  function Inherit(pairs: seq<(string, string)>): (t: Table)
    ensures forall n :: n in t <==> n in Names(pairs)
    ensures forall n :: n in t ==> t[n].isExported
    ensures forall i :: 0 <= i < |pairs| && pairs[i].0 !in Names(pairs[i + 1..]) ==>
              t[pairs[i].0].value == pairs[i].1
    decreases |pairs|
  {
    if pairs == [] then map[]
    else
      var rest := Inherit(pairs[1..]);
      var (name, value) := pairs[0];
      assert forall i :: 1 <= i < |pairs| ==> pairs[i + 1..] == pairs[1..][i..];
      if name in rest then rest else rest[name := Var(value, true)]
  }

  /** The names occurring in a list of pairs. */
  function Names(pairs: seq<(string, string)>): set<string>
  {
    set i | 0 <= i < |pairs| :: pairs[i].0
  }

  /** The table after `name` is assigned the (already expanded) `value`. */
  function Assigned(t: Table, name: string, value: string): (r: Table)
    ensures r.Keys == t.Keys + {name}
    ensures r[name].value == value
    ensures r[name].isExported <==> name in t && t[name].isExported
    ensures forall n :: n in t && n != name ==> r[n] == t[n]
  {
    if name in t then t[name := t[name].(value := value)] else t[name := Var(value, false)]
  }

  /** The table after `name` is exported, with the (already expanded) `value` if one is given. */
  function Exported(t: Table, name: string, value: Option<string>): (r: Table)
    ensures r.Keys == t.Keys + {name}
    ensures r[name].isExported
    ensures value.Some? ==> r[name].value == value.value
    ensures value.None? && name in t ==> r[name].value == t[name].value
    ensures value.None? && name !in t ==> r[name].value == ""
    ensures forall n :: n in t && n != name ==> r[n] == t[n]
  {
    match value
    case Some(v) => t[name := Var(v, true)]
    case None => if name in t then t[name := t[name].(isExported := true)] else t[name := Var("", true)]
  }

  /** The exported variables, name to value, as `iter_exported` yields them (in no order). */
  function ExportedView(t: Table): (m: map<string, string>)
    ensures forall n :: n in m <==> n in t && t[n].isExported
    ensures forall n :: n in m ==> m[n] == t[n].value
  {
    map n | n in t && t[n].isExported :: t[n].value
  }

  class Environment {
    var values: Table

    /** `Environment::new`, with the process environment passed in as `vars`. */
    constructor (vars: seq<(string, string)>)
      ensures values == Inherit(vars)
    {
      values := Inherit(vars);
    }

    function Get(name: string): (r: Option<string>)
      reads this
      ensures r.Some? <==> name in values
      ensures r.Some? ==> r.value == values[name].value
    {
      if name in values then Some(values[name].value) else None
    }

    /** The value of `HOME`, which must be set. */
    function Home(): (r: string)
      reads this
      requires "HOME" in values
      ensures Get("HOME") == Some(r)
    {
      values["HOME"].value
    }

    /** The value of `PATH`, or the empty string when it is not set. */
    function Path(): (r: string)
      reads this
      ensures Get("PATH") == Some(r) || (Get("PATH") == None && r == "")
    {
      match Get("PATH")
      case Some(v) => v
      case None => ""
    }

    /** The exported variables, as pairs of name and value. */
    function IterExported(): (r: map<string, string>)
      reads this
      ensures forall n :: n in r <==> Get(n).Some? && values[n].isExported
      ensures forall n :: n in r ==> Get(n) == Some(r[n])
    {
      ExportedView(values)
    }

    /**
      * `name=value`: the value is expanded against the current table; on success the
      * variable is set, keeping its exported flag; on failure the table is not touched.
      */
    method Assign<E>(pair: NameValuePair<E>, expand: (E, Table) -> Result<string>) returns (r: Result<()>)
      modifies this
      ensures expand(pair.value, old(values)).Err? ==>
                r == Err(expand(pair.value, old(values)).error) && values == old(values)
      ensures expand(pair.value, old(values)).Ok? ==>
                r == Ok(()) && values == Assigned(old(values), pair.name, expand(pair.value, old(values)).value)
    {
      var expanded := expand(pair.value, values);
      if expanded.Err? {
        return Err(expanded.error);
      }
      var value := expanded.value;
      if pair.name in values {
        values := values[pair.name := values[pair.name].(value := value)];
      } else {
        values := values[pair.name := Var(value, false)];
      }
      r := Ok(());
    }

    /**
      * `export name=value` sets the expanded value and exports it; `export name` exports the
      * variable as it is, creating it empty if it does not exist. A failed expansion leaves
      * the table as it was.
      */
    method Export<E>(exportable: Exportable<E>, expand: (E, Table) -> Result<string>) returns (r: Result<()>)
      modifies this
      ensures exportable.value.Some? && expand(exportable.value.value, old(values)).Err? ==>
                r == Err(expand(exportable.value.value, old(values)).error) && values == old(values)
      ensures exportable.value.Some? && expand(exportable.value.value, old(values)).Ok? ==>
                r == Ok(()) &&
                values == Exported(old(values), exportable.name, Some(expand(exportable.value.value, old(values)).value))
      ensures exportable.value.None? ==> r == Ok(()) && values == Exported(old(values), exportable.name, None)
    {
      if exportable.value.Some? {
        var expanded := expand(exportable.value.value, values);
        if expanded.Err? {
          return Err(expanded.error);
        }
        values := values[exportable.name := Var(expanded.value, true)];
      } else if exportable.name in values {
        values := values[exportable.name := values[exportable.name].(isExported := true)];
      } else {
        values := values[exportable.name := Var("", true)];
      }
      r := Ok(());
    }
  }

  /** Assignment never changes which variables are exported, only possibly one exported value. */
  lemma AssignExportedView(t: Table, name: string, value: string)
    ensures ExportedView(Assigned(t, name, value)).Keys == ExportedView(t).Keys
    ensures name in ExportedView(t) ==> ExportedView(Assigned(t, name, value)) == ExportedView(t)[name := value]
    ensures name !in ExportedView(t) ==> ExportedView(Assigned(t, name, value)) == ExportedView(t)
  {
  }

  /** Export adds exactly `name` to the exported variables and changes no other one. */
  lemma ExportExportedView(t: Table, name: string, value: Option<string>)
    ensures ExportedView(Exported(t, name, value)).Keys == ExportedView(t).Keys + {name}
    ensures forall n :: n in ExportedView(t) && n != name ==>
              ExportedView(Exported(t, name, value))[n] == ExportedView(t)[n]
  {
  }

  /** Exporting a name without a value a second time changes nothing. */
  lemma ExportIdempotent(t: Table, name: string)
    ensures Exported(Exported(t, name, None), name, None) == Exported(t, name, None)
  {
  }

  /** Exporting without a value keeps an existing value: `export` after `assign` publishes it. */
  lemma AssignThenExport(t: Table, name: string, value: string)
    ensures ExportedView(Exported(Assigned(t, name, value), name, None))[name] == value
  {
  }

  /** Every inherited variable is exported, so the inherited names are exactly what is handed on. */
  lemma InheritAllExported(pairs: seq<(string, string)>)
    ensures ExportedView(Inherit(pairs)).Keys == Names(pairs)
  {
  }
}
