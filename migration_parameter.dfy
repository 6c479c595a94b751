/**
 * Named, typed parameters whose values are resolved per script, and the keyed
 * collection that holds them (MigrationParameter.cs).
 */
module Parameters {
  import opened Wrappers
  import MigrationEvents

  /** System.Data.DbType, by its numeric value. */
  datatype DbType = DbType(code: nat)

  /** DbType.String. */
  const StringType: DbType := DbType(16)

  /** A value bound to a command parameter (the C# `object` a resolver returns). */
  datatype DbValue = DbNull | Text(text: string) | Boxed(id: int)

  /** ResolveMigrationParameter: (script name, parameter name) to the value to bind. */
  type Resolver = (string, string) -> DbValue

  /**
   * MigrationParameter: the constructor stores name, database type and resolver as
   * given. The core never assigns the public setters, so the value is immutable here.
   */
  datatype MigrationParameter = MigrationParameter(name: string, databaseType: DbType, valueFactory: Resolver)
  {
    /** The value for the script `migrationName`: the resolver applied to it and to this parameter's name. */
    function Value(migrationName: string): DbValue
    {
      valueFactory(migrationName, name)
    }
  }

  /**
   * The contents of a MigrationParameterColletion: the dictionary, and its keys in
   * the order they were added (the order a dictionary that is only ever added to
   * enumerates them in).
   */
  datatype ParameterMap = ParameterMap(entries: map<string, MigrationParameter>, order: seq<string>)
  {
    /** Keys are listed once each, exactly the keys of the dictionary, and each parameter is filed under its own name. */
    ghost predicate Valid()
    {
      && (forall i, j :: 0 <= i < j < |order| ==> order[i] != order[j])
      && (forall k :: k in entries <==> k in order)
      && (forall k :: k in entries ==> entries[k].name == k)
    }
  }

  /** A new, empty collection. */
  const Empty: ParameterMap := ParameterMap(map[], [])

  /**
   * Dictionary.Add(parameter.Name, parameter): `None` when the name is already a key
   * (the dictionary throws and keeps its contents).
   */
  function Inserted(m: ParameterMap, p: MigrationParameter): Option<ParameterMap>
  {
    if p.name in m.entries then None
    else Some(ParameterMap(m.entries[p.name := p], m.order + [p.name]))
  }

  /**
   * Adding fails exactly for a name already present. Adding a fresh name stores the
   * parameter under its name, grows the count by one, keeps every other entry and
   * appends the name to the enumeration order.
   */
  lemma InsertedSpec(m: ParameterMap, p: MigrationParameter)
    ensures Inserted(m, p).None? <==> p.name in m.entries
    ensures Inserted(m, p).Some? ==>
      var n := Inserted(m, p).value;
      && p.name in n.entries && n.entries[p.name] == p
      && |n.entries| == |m.entries| + 1
      && n.entries.Keys == m.entries.Keys + {p.name}
      && (forall k :: k in m.entries ==> n.entries[k] == m.entries[k])
      && n.order == m.order + [p.name]
  {
    if p.name !in m.entries {
      var n := Inserted(m, p).value;
      assert n.entries.Keys == m.entries.Keys + {p.name};
    }
  }

  /** Adding keeps a well-formed collection well formed. */
  lemma InsertedValid(m: ParameterMap, p: MigrationParameter)
    requires m.Valid()
    ensures Inserted(m, p).Some? ==> Inserted(m, p).value.Valid()
  {
    if p.name !in m.entries {
      var n := Inserted(m, p).value;
      assert p.name !in m.order;
      forall i, j | 0 <= i < j < |n.order| ensures n.order[i] != n.order[j] {
        if j == |m.order| { assert n.order[i] in m.order; }
      }
    }
  }

  /** MigrationParameterColletion: a dictionary from parameter name to parameter, added to in place. */
  class MigrationParameterColletion {
    var entries: map<string, MigrationParameter>
    var order: seq<string>

    function Contents(): ParameterMap
      reads this
    {
      ParameterMap(entries, order)
    }

    ghost predicate Valid()
      reads this
    {
      Contents().Valid()
    }

    constructor ()
      ensures Valid() && Contents() == Empty
    {
      entries := map[];
      order := [];
    }

    /** Dictionary.Count. */
    function Count(): nat
      reads this
    {
      |entries|
    }

    /**
     * Add(parameter): files the parameter under its name and returns this same
     * collection; a name already present throws ArgumentException and changes nothing.
     */
    method Add(parameter: MigrationParameter) returns (r: Result<MigrationParameterColletion, MigrationEvents.Exception>)
      requires Valid()
      modifies this
      ensures Valid()
      ensures match Inserted(old(Contents()), parameter)
        case None => r == Failure(MigrationEvents.ArgumentException(parameter.name)) && Contents() == old(Contents())
        case Some(c) => r == Success(this) && Contents() == c
    {
      InsertedValid(Contents(), parameter);
      if parameter.name in entries {
        return Failure(MigrationEvents.ArgumentException(parameter.name));
      }
      entries := entries[parameter.name := parameter];
      order := order + [parameter.name];
      r := Success(this);
    }

    /** Add(name, dbType, valueFactory): exactly Add(new MigrationParameter(name, dbType, valueFactory)). */
    method AddNew(name: string, dbType: DbType, valueFactory: Resolver) returns (r: Result<MigrationParameterColletion, MigrationEvents.Exception>)
      requires Valid()
      modifies this
      ensures Valid()
      ensures match Inserted(old(Contents()), MigrationParameter(name, dbType, valueFactory))
        case None => r == Failure(MigrationEvents.ArgumentException(name)) && Contents() == old(Contents())
        case Some(c) => r == Success(this) && Contents() == c
    {
      r := Add(MigrationParameter(name, dbType, valueFactory));
    }
  }
}
