/** JCondition: a loot condition builder. It carries a fixed condition identifier,
    a lazily created parameter object filled by named mutators, and one
    predicate slot; its serializer writes the identifier, then the parameters at
    the top level, then a `predicate` member that is always present. */
module LootCondition {
  import opened Wrappers
  import opened Gson
  import opened Minecraft

  class JCondition {
    const condition: Identifier
    var parameters: Option<Fields>   // None: the JsonObject was never created
    var pred: Option<Json>      // the `predicate` field; None: it is null

    /** Every parameter is written under a fixed name, none of them "condition",
        through `JsonObject.add`, so names never repeat. */
    ghost predicate Valid()
      reads this`parameters
    {
      parameters.Some? ==> UniqueKeys(parameters.value) && "condition" !in Keys(parameters.value)
    }

    /** The JSON the serializer produces for this condition. */
    ghost function ToJson(): Json
      reads this`parameters, this`pred
    {
      JObj(Put(PutAll([("condition", JStr(condition))], parameters.GetOr([])),
               "predicate", pred.GetOr(JNull)))
    }

    constructor (condition: Identifier)
      ensures this.condition == condition && parameters == None && pred == None
      ensures Valid()
      ensures ToJson() == JObj([("condition", JStr(condition)), ("predicate", JNull)])
    {
      this.condition := condition;
      parameters := None;
      pred := None;
      PutKeys([("condition", JStr(condition))], "predicate", JNull);
    }

    /** The deprecated String constructor: the string is parsed as an identifier,
        which throws when it is malformed. */
    static method FromString(game: Game, condition: string) returns (r: Result<JCondition, Error>)
      ensures r.Failure? <==> game.parseIdentifier(condition).None?
      ensures r.Failure? ==> r.error == InvalidIdentifier(condition)
      ensures r.Success? ==> fresh(r.value) && r.value.Valid()
      ensures r.Success? ==> r.value.condition == game.parseIdentifier(condition).value
      ensures r.Success? ==> r.value.parameters == None && r.value.pred == None
    {
      var id := game.parseIdentifier(condition);
      if id.None? {
        return Failure(InvalidIdentifier(condition));
      }
      var c := new JCondition(id.value);
      return Success(c);
    }

    method GetOrCreateParameters()
      requires Valid()
      modifies this`parameters
      ensures Valid()
      ensures parameters == Some(old(parameters).GetOr([]))
    {
      if parameters.None? {
        parameters := Some([]);
      }
    }

    /** Writes one parameter, as `parameters.add(key, value)` does. */
    method AddParameter(key: string, value: Json)
      requires Valid() && parameters.Some? && key != "condition"
      modifies this`parameters
      ensures Valid()
      ensures parameters == Some(Put(old(parameters).value, key, value))
    {
      PutUnique(parameters.value, key, value);
      PutKeys(parameters.value, key, value);
      parameters := Some(Put(parameters.value, key, value));
    }

    /** `alternative`: the context field of a JCondition is never assigned, so
        serializing the terms throws once the parameters exist. */
    method Alternative(terms: seq<JCondition>) returns (r: Outcome<Error>)
      requires Valid()
      modifies this`parameters
      ensures Valid()
      ensures r == Fail(NullPointer)
      ensures parameters == Some(old(parameters).GetOr([]))
    {
      GetOrCreateParameters();
      return Fail(NullPointer);
    }

    method BlockStateProperties(block: Identifier, properties: Json)
      requires Valid()
      modifies this`parameters
      ensures Valid()
      ensures parameters == Some(PutAll(old(parameters).GetOr([]),
                                        [("block", JStr(block)), ("properties", properties)]))
    {
      GetOrCreateParameters();
      PutAllTwo(parameters.value, ("block", JStr(block)), ("properties", properties));
      AddParameter("block", JStr(block));
      AddParameter("properties", properties);
    }

    /** Writes the damage-source predicate as the parameter "predicate" (see
        `PredicateOverridesParameter` for what the serializer does with it). */
    method DamageSourceProperties(pred: Json)
      requires Valid()
      modifies this`parameters
      ensures Valid()
      ensures parameters == Some(Put(old(parameters).GetOr([]), "predicate", pred))
    {
      GetOrCreateParameters();
      AddParameter("predicate", pred);
    }

    /** `inverted`: throws like `alternative`, once the parameters exist. */
    method Inverted(term: JCondition) returns (r: Outcome<Error>)
      requires Valid()
      modifies this`parameters
      ensures Valid()
      ensures r == Fail(NullPointer)
      ensures parameters == Some(old(parameters).GetOr([]))
    {
      GetOrCreateParameters();
      return Fail(NullPointer);
    }

    /** `killedByPlayer` changes nothing. */
    method KilledByPlayer()
      ensures unchanged(this)
    {
    }

    method RandomChance(chance: bv32)
      requires Valid()
      modifies this`parameters
      ensures Valid()
      ensures parameters == Some(Put(old(parameters).GetOr([]), "chance", JNum(Float(chance))))
    {
      GetOrCreateParameters();
      AddParameter("chance", JNum(Float(chance)));
    }

    method RandomChanceWithLooting(chance: bv32, lootingMultiplier: bv32)
      requires Valid()
      modifies this`parameters
      ensures Valid()
      ensures parameters == Some(PutAll(old(parameters).GetOr([]),
        [("chance", JNum(Float(chance))), ("looting_multiplier", JNum(Float(lootingMultiplier)))]))
    {
      GetOrCreateParameters();
      PutAllTwo(parameters.value, ("chance", JNum(Float(chance))), ("looting_multiplier", JNum(Float(lootingMultiplier))));
      AddParameter("chance", JNum(Float(chance)));
      AddParameter("looting_multiplier", JNum(Float(lootingMultiplier)));
    }

    method Reference(name: Identifier)
      requires Valid()
      modifies this`parameters
      ensures Valid()
      ensures parameters == Some(Put(old(parameters).GetOr([]), "name", JStr(name)))
    {
      GetOrCreateParameters();
      AddParameter("name", JStr(name));
    }

    /** `tableBonus`: the enchantment is written, then serializing the chances
        through the never-assigned context throws. */
    method TableBonus(enchantment: Identifier, chances: seq<bv32>) returns (r: Outcome<Error>)
      requires Valid()
      modifies this`parameters
      ensures Valid()
      ensures r == Fail(NullPointer)
      ensures parameters == Some(Put(old(parameters).GetOr([]), "enchantment", JStr(enchantment)))
    {
      GetOrCreateParameters();
      AddParameter("enchantment", JStr(enchantment));
      return Fail(NullPointer);
    }

    /** `timeCheck`: the period is written, then serializing the range through
        the never-assigned context throws. */
    method TimeCheck(period: Int64, value: Handle) returns (r: Outcome<Error>)
      requires Valid()
      modifies this`parameters
      ensures Valid()
      ensures r == Fail(NullPointer)
      ensures parameters == Some(Put(old(parameters).GetOr([]), "period", JNum(Int(period))))
    {
      GetOrCreateParameters();
      AddParameter("period", JNum(Int(period)));
      return Fail(NullPointer);
    }

    method WeatherCheck(raining: bool, thundering: bool)
      requires Valid()
      modifies this`parameters
      ensures Valid()
      ensures parameters == Some(PutAll(old(parameters).GetOr([]),
        [("raining", JBool(raining)), ("thundering", JBool(thundering))]))
    {
      GetOrCreateParameters();
      PutAllTwo(parameters.value, ("raining", JBool(raining)), ("thundering", JBool(thundering)));
      AddParameter("raining", JBool(raining));
      AddParameter("thundering", JBool(thundering));
    }

    /** `damageSource` has the same effect as `damageSourceProperties`. */
    method DamageSource(pred: Json)
      requires Valid()
      modifies this`parameters
      ensures Valid()
      ensures parameters == Some(Put(old(parameters).GetOr([]), "predicate", pred))
    {
      GetOrCreateParameters();
      AddParameter("predicate", pred);
    }

    /** `entityScores`: a non-empty score map throws at its first entry, before
        anything is written; an empty one gets an empty "scores" object written
        and then throws on the entity target. */
    method EntityScores(scores: map<string, Handle>, target: Handle) returns (r: Outcome<Error>)
      requires Valid()
      modifies this`parameters
      ensures Valid()
      ensures r == Fail(NullPointer)
      ensures |scores| > 0 ==> parameters == old(parameters)
      ensures |scores| == 0 ==> parameters == Some(Put(old(parameters).GetOr([]), "scores", JObj([])))
    {
      if |scores| > 0 {
        return Fail(NullPointer);
      }
      GetOrCreateParameters();
      AddParameter("scores", JObj([]));
      return Fail(NullPointer);
    }

    /** `matchTool` sets the predicate slot and nothing else. */
    method MatchTool(pred: Json)
      modifies this`pred
      ensures this.pred == Some(pred)
    {
      this.pred := Some(pred);
    }

    /** `locationCheck` sets the predicate slot, creates the parameters and
        writes the offset components that are not zero. */
    method LocationCheck(pred: Json, offset: BlockPos)
      requires Valid()
      modifies this
      ensures Valid()
      ensures this.pred == Some(pred)
      ensures parameters == Some(LocationCheckParameters(old(parameters).GetOr([]), offset))
    {
      this.pred := Some(pred);
      GetOrCreateParameters();
      if offset.x != 0 { AddParameter("offsetX", JNum(Int(offset.x))); }
      if offset.y != 0 { AddParameter("offsetY", JNum(Int(offset.y))); }
      if offset.z != 0 { AddParameter("offsetZ", JNum(Int(offset.z))); }
    }

    /** Gson.serialize: the condition identifier, each parameter copied to the
        top level with `add`, then the predicate (`add` of null writes JSON null). */
    method Serialize() returns (j: Json)
      ensures j == ToJson()
    {
      var out: Fields := [("condition", JStr(condition))];
      if parameters.Some? {
        var ps := parameters.value;
        var i := 0;
        while i < |ps|
          invariant 0 <= i <= |ps|
          invariant PutAll(out, ps[i..]) == PutAll([("condition", JStr(condition))], ps)
        {
          assert ps[i..][1..] == ps[i + 1..];
          out := Put(out, ps[i].0, ps[i].1);
          i := i + 1;
        }
      }
      out := Put(out, "predicate", pred.GetOr(JNull));
      j := JObj(out);
    }
  }

  /** The parameters after `locationCheck`: each offset component, in the
      order x, y, z, is written exactly when it is not zero, and every other
      parameter is as it was. */
  function LocationCheckParameters(ps: Fields, offset: BlockPos): (r: Fields)
    ensures Get(r, "offsetX") == if offset.x != 0 then Some(JNum(Int(offset.x))) else Get(ps, "offsetX")
    ensures Get(r, "offsetY") == if offset.y != 0 then Some(JNum(Int(offset.y))) else Get(ps, "offsetY")
    ensures Get(r, "offsetZ") == if offset.z != 0 then Some(JNum(Int(offset.z))) else Get(ps, "offsetZ")
    ensures forall k :: k != "offsetX" && k != "offsetY" && k != "offsetZ" ==> Get(r, k) == Get(ps, k)
  {
    var p := PutIf(ps, offset.x != 0, "offsetX", JNum(Int(offset.x)));
    var p := PutIf(p, offset.y != 0, "offsetY", JNum(Int(offset.y)));
    PutIf(p, offset.z != 0, "offsetZ", JNum(Int(offset.z)))
  }

  /** The serializations of a list of conditions, element by element. */
  ghost function ConditionsJson(cs: seq<JCondition>): (r: seq<Json>)
    reads (set c | c in cs)`parameters, (set c | c in cs)`pred
    ensures |r| == |cs|
    ensures forall i :: 0 <= i < |cs| ==> r[i] == cs[i].ToJson()
  {
    if cs == [] then [] else [cs[0].ToJson()] + ConditionsJson(cs[1..])
  }

  /** A "conditions" array: each condition serialized in order. */
  method SerializeConditions(cs: seq<JCondition>) returns (items: seq<Json>)
    ensures items == ConditionsJson(cs)
  {
    items := [];
    var i := 0;
    while i < |cs|
      invariant 0 <= i <= |cs|
      invariant |items| == i && forall k :: 0 <= k < i ==> items[k] == cs[k].ToJson()
    {
      var c := cs[i].Serialize();
      items := items + [c];
      i := i + 1;
    }
  }

  /** The serialized condition is the identifier under "condition", then the
      parameters in insertion order, then "predicate" holding the pred
      slot (JSON null when unset): appended when no parameter has that name,
      otherwise written over that parameter's value in its place. */
  lemma ConditionShape(c: JCondition)
    requires c.Valid()
    ensures c.ToJson().fields ==
      [("condition", JStr(c.condition))] + Put(c.parameters.GetOr([]), "predicate", c.pred.GetOr(JNull))
  {
    var ps, p := c.parameters.GetOr([]), c.pred.GetOr(JNull);
    var head := [("condition", JStr(c.condition))];
    assert UniqueKeys(ps) && "condition" !in Keys(ps);
    PutAllFresh(head, ps);
    var all := head + ps;
    assert all[0].0 != "predicate" && all[1..] == ps;
  }

  /** The first member is always the identifier under "condition". */
  lemma ConditionFirst(c: JCondition)
    requires c.Valid()
    ensures |c.ToJson().fields| > 0 && c.ToJson().fields[0] == ("condition", JStr(c.condition))
  {
    ConditionShape(c);
  }

  /** "predicate" is always present and holds the predicate slot, or JSON null
      when neither `matchTool` nor `locationCheck` set it. */
  lemma PredicateAlwaysPresent(c: JCondition)
    requires c.Valid()
    ensures Get(c.ToJson().fields, "predicate") == Some(c.pred.GetOr(JNull))
  {
    var ps, p := c.parameters.GetOr([]), c.pred.GetOr(JNull);
    ConditionShape(c);
    GetAppend([("condition", JStr(c.condition))], Put(ps, "predicate", p), "predicate");
  }

  /** The member names are "condition", the parameter names in insertion
      order, and "predicate" last unless a parameter already had that name. */
  lemma ConditionKeys(c: JCondition)
    requires c.Valid()
    ensures var ps := c.parameters.GetOr([]);
      Keys(c.ToJson().fields) ==
        ["condition"] + Keys(ps) + (if "predicate" in Keys(ps) then [] else ["predicate"])
  {
    var ps, p := c.parameters.GetOr([]), c.pred.GetOr(JNull);
    var head, tail := [("condition", JStr(c.condition))], Put(ps, "predicate", p);
    ConditionShape(c);
    PutKeys(ps, "predicate", p);
    assert Keys(head + tail) == ["condition"] + Keys(tail) by {
      KeysAppend(head, tail);
    }
  }

  /** Every parameter other than "predicate" appears with the value last
      written to it. */
  lemma ConditionParameter(c: JCondition, k: string)
    requires c.Valid() && k != "condition" && k != "predicate"
    ensures Get(c.ToJson().fields, k) == Get(c.parameters.GetOr([]), k)
  {
    var ps, p := c.parameters.GetOr([]), c.pred.GetOr(JNull);
    ConditionShape(c);
    GetAppend([("condition", JStr(c.condition))], Put(ps, "predicate", p), k);
  }

  /** A "predicate" parameter written by `damageSource` or
      `damageSourceProperties` is overwritten by the predicate slot: its
      position is kept, its value is lost, and it is JSON null when the slot
      was never set. */
  lemma PredicateOverridesParameter(c: JCondition)
    requires c.Valid() && c.parameters.Some? && "predicate" in Keys(c.parameters.value)
    ensures Keys(c.ToJson().fields) == ["condition"] + Keys(c.parameters.value)
    ensures Get(c.ToJson().fields, "predicate") == Some(c.pred.GetOr(JNull))
    ensures c.pred.None? ==> Get(c.ToJson().fields, "predicate") == Some(JNull)
    ensures var ps, fs := c.parameters.value, c.ToJson().fields;
      |fs| == 1 + |ps| &&
      forall i :: 0 <= i < |ps| ==>
        fs[i + 1] == if ps[i].0 == "predicate" then ("predicate", c.pred.GetOr(JNull)) else ps[i]
  {
    ConditionKeys(c);
    PredicateAlwaysPresent(c);
    ConditionShape(c);
    PutInPlace(c.parameters.value, "predicate", c.pred.GetOr(JNull));
  }
}
