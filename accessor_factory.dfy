/**
 * AccessorFactory: accessors registered by their accessor type, and the lookup of the accessor
 * for a data-source configuration through the catalogue of known data-source types.
 */
module AccessorFactory {
  import opened Wrappers
  import opened JavaText

  /** An accessor as the factory sees it: its type key and the data-source type names it supports. */
  datatype AccessorInfo = AccessorInfo(accessorType: string, supported: set<string>)

  /** One entry of the data-source type catalogue (BizDataSourceTypeEnum). */
  datatype DataSourceType = DataSourceType(name: string, typeName: string, dialect: string, protocol: string)

  /** A data-source configuration (DbConfigBO); the lookup reads its dialect and connection type. */
  datatype DbConfig = DbConfig(
    url: Option<string>,
    username: Option<string>,
    password: Option<string>,
    connectionType: Option<string>,
    dialectType: Option<string>,
    schema: Option<string>)

  /** `a.equalsIgnoreCase(b)` with a possibly null argument, which never matches. */
  predicate EqualsIgnoreCaseOpt(a: string, b: Option<string>)
  {
    b.Some? && EqualsIgnoreCase(a, b.value)
  }

  predicate MatchesConfig(e: DataSourceType, config: DbConfig)
  {
    EqualsIgnoreCaseOpt(e.dialect, config.dialectType) && EqualsIgnoreCaseOpt(e.protocol, config.connectionType)
  }

  /** The first catalogue entry whose dialect and protocol both match, ignoring case. */
  function FindType(catalogue: seq<DataSourceType>, config: DbConfig): (r: Option<nat>)
    ensures r.Some? ==> r.value < |catalogue| && MatchesConfig(catalogue[r.value], config)
                        && forall k :: 0 <= k < r.value ==> !MatchesConfig(catalogue[k], config)
    ensures r.None? ==> forall k :: 0 <= k < |catalogue| ==> !MatchesConfig(catalogue[k], config)
    decreases |catalogue|
  {
    if |catalogue| == 0 then None
    else if MatchesConfig(catalogue[0], config) then Some(0)
    else
      match FindType(catalogue[1..], config)
      case None => None
      case Some(k) => Some(k + 1)
  }

  /** The accessor map after registering `accessors` in order into `m`: a later accessor of the same type replaces an earlier one. */
  function RegisterAll(m: map<string, AccessorInfo>, accessors: seq<AccessorInfo>): (r: map<string, AccessorInfo>)
    decreases |accessors|
  {
    if |accessors| == 0 then m
    else
      var last := accessors[|accessors| - 1];
      RegisterAll(m, accessors[..|accessors| - 1])[last.accessorType := last]
  }

  /** Registration keeps, for every registered type, the last accessor registered under it. */
  lemma {:induction false} RegisterAllLastWins(m: map<string, AccessorInfo>, accessors: seq<AccessorInfo>, i: nat)
    requires i < |accessors|
    requires forall j :: i < j < |accessors| ==> accessors[j].accessorType != accessors[i].accessorType
    ensures accessors[i].accessorType in RegisterAll(m, accessors)
    ensures RegisterAll(m, accessors)[accessors[i].accessorType] == accessors[i]
    decreases |accessors|
  {
    var init := accessors[..|accessors| - 1];
    if i < |init| {
      assert init[i] == accessors[i];
      forall j | i < j < |init| ensures init[j].accessorType != init[i].accessorType {
        assert init[j] == accessors[j];
      }
      RegisterAllLastWins(m, init, i);
    }
  }

  /** A type nobody registers keeps whatever the map held before. */
  lemma {:induction false} RegisterAllOthers(m: map<string, AccessorInfo>, accessors: seq<AccessorInfo>, t: string)
    requires forall i :: 0 <= i < |accessors| ==> accessors[i].accessorType != t
    ensures t in RegisterAll(m, accessors) <==> t in m
    ensures t in m ==> RegisterAll(m, accessors)[t] == m[t]
    decreases |accessors|
  {
    if |accessors| > 0 {
      var init := accessors[..|accessors| - 1];
      assert forall i :: 0 <= i < |init| ==> init[i] == accessors[i];
      RegisterAllOthers(m, init, t);
    }
  }

  /** The accessor registry. */
  class Factory {
    var accessorMap: map<string, AccessorInfo>

    /** The constructor registers the given accessors in order. */
    constructor (accessors: seq<AccessorInfo>)
      ensures accessorMap == RegisterAll(map[], accessors)
    {
      var m := map[];
      var i := 0;
      while i < |accessors|
        invariant 0 <= i <= |accessors|
        invariant m == RegisterAll(map[], accessors[..i])
      {
        assert accessors[..i + 1][..i] == accessors[..i];
        m := m[accessors[i].accessorType := accessors[i]];
        i := i + 1;
      }
      assert accessors[..|accessors|] == accessors;
      accessorMap := m;
    }

    /** register: put under the accessor's type, replacing any accessor of that type. */
    method Register(a: AccessorInfo)
      modifies this
      ensures accessorMap == old(accessorMap)[a.accessorType := a]
    {
      accessorMap := accessorMap[a.accessorType := a];
    }

    predicate IsRegistered(t: string)
      reads this
    {
      t in accessorMap
    }

    /** getAccessorByType: the accessor registered under that type, or null. */
    function GetAccessorByType(t: string): (r: Option<AccessorInfo>)
      reads this
      ensures r.Some? <==> IsRegistered(t)
      ensures r.Some? ==> r.value == accessorMap[t]
    {
      if t in accessorMap then Some(accessorMap[t]) else None
    }

    /**
     * getAccessorByDbTypeEnum: some registered accessor that supports the type's name (the map's
     * iteration order decides which); IllegalStateException when none does.
     */
    method GetAccessorByDbTypeEnum(e: DataSourceType) returns (r: Result<AccessorInfo>)
      ensures r.Ok? ==> r.value in accessorMap.Values && e.typeName in r.value.supported
      ensures r.Err? <==> forall a :: a in accessorMap.Values ==> e.typeName !in a.supported
      ensures r.Err? ==> r.error == IllegalState("no accessor registered for dialect: " + e.name)
    {
      var supporting := set a | a in accessorMap.Values && e.typeName in a.supported;
      if supporting == {} {
        assert forall a :: a in accessorMap.Values ==> a !in supporting;
        return Err(IllegalState("no accessor registered for dialect: " + e.name));
      }
      var a :| a in supporting;
      return Ok(a);
    }

    /**
     * getAccessorByDbConfig: null configuration is an IllegalArgumentException; the first
     * catalogue entry matching dialect and protocol (ignoring case) picks the accessor, and no
     * match is an IllegalStateException naming the configured dialect.
     */
    method GetAccessorByDbConfig(catalogue: seq<DataSourceType>, config: Option<DbConfig>) returns (r: Result<AccessorInfo>)
      ensures config.None? ==> r == Err(IllegalArgument("dbConfig cannot be null"))
      ensures config.Some? && FindType(catalogue, config.value).None? ==>
                r == Err(IllegalState("no accessor registered for dialect: " + NullText(config.value.dialectType)))
      ensures config.Some? && FindType(catalogue, config.value).Some? ==>
                var e := catalogue[FindType(catalogue, config.value).value];
                (r.Ok? ==> r.value in accessorMap.Values && e.typeName in r.value.supported)
                && (r.Err? <==> forall a :: a in accessorMap.Values ==> e.typeName !in a.supported)
    {
      if config.None? {
        return Err(IllegalArgument("dbConfig cannot be null"));
      }
      var found := FindType(catalogue, config.value);
      if found.None? {
        return Err(IllegalState("no accessor registered for dialect: " + NullText(config.value.dialectType)));
      }
      r := GetAccessorByDbTypeEnum(catalogue[found.value]);
    }
  }
}
