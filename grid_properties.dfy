/** The hub/node property loader: two layered property files per role are merged and
    the keys of the `grid.` namespace are emitted as command-line "-flag", value pairs. */
module GridProperties {
  import opened Common

  /** What the class loader and Properties.load make of one resource path. */
  datatype Resource =
    | Missing                                    // getResourceAsStream returned null
    | Unreadable(partial: map<string, string>)   // an IOException after `partial` was read
    | Malformed(partial: map<string, string>)    // an IllegalArgumentException (a bad \uXXXX escape)
    | Readable(entries: map<string, string>)

  /** StrSubstitutor.replace(value, properties): the placeholder resolver is a parameter;
      None is the IllegalStateException it raises on a cyclic placeholder reference. */
  type Substitution = (string, map<string, string>) -> Option<string>

  datatype PropertiesError =
    | RoleRequired                   // IllegalArgumentException "Role for the grid is required"
    | MainFileMissing(path: string)  // Properties.load(null): a NullPointerException
    | MainFileUnreadable(path: string)  // "Unable to load main property file <path>"
    | FileMalformed(path: string)    // IllegalArgumentException from Properties.load, never caught
    | InvalidFormat(key: string)     // "The property '<key>' does not have a valid format."
    | SubstitutionFailed(key: string)  // IllegalStateException from StrSubstitutor.replace
    | LoadFailed(message: string, cause: PropertiesError)  // the hub/node wrappers

  const CmdParameterPrefix := "-"
  const PropertyPrefix := "grid."
  const HubUrlPortKey := "hub.url.port"
  const HubRole := "hub"
  const NodeRole := "node"
  const HubLoadMessage := "Unable to load hub properties"
  const NodeLoadMessage := "Unable to load node properties"

  function PropertyPath(role: string): string { "grid/" + role + ".properties" }

  function LocalPropertyPath(role: string): string { "grid/" + role + ".local.properties" }

  /** The entries a resource contributes when it is loaded on top of a map. */
  function Entries(r: Resource): map<string, string>
  {
    match r
    case Missing => map[]
    case Unreadable(partial) => partial
    case Malformed(partial) => partial
    case Readable(entries) => entries
  }

  /** The property map after the base file, the local file and the port override. */
  function Merged(base: map<string, string>, local: Resource, gridPort: seq<Int32>): (m: map<string, string>)
    ensures m.Keys == base.Keys + Entries(local).Keys + (if |gridPort| > 0 then {HubUrlPortKey} else {})
    ensures |gridPort| > 0 ==> m[HubUrlPortKey] == DecimalString(gridPort[0] as int)
    ensures forall k :: k in Entries(local) && (|gridPort| == 0 || k != HubUrlPortKey) ==> m[k] == Entries(local)[k]
    ensures forall k :: k in base && k !in Entries(local) && (|gridPort| == 0 || k != HubUrlPortKey) ==> m[k] == base[k]
  {
    var loaded := base + Entries(local);
    if |gridPort| > 0 then loaded[HubUrlPortKey := DecimalString(gridPort[0] as int)] else loaded
  }

  /** Everything getProperties does before it walks the keys. */
  function LoadProperties(role: Option<string>, resources: string -> Resource, gridPort: seq<Int32>)
    : (r: Result<map<string, string>, PropertiesError>)
    ensures role.None? || role.value == "" ==> r == Err(RoleRequired)
    ensures r.Ok? <==>
              role.Some? && role.value != "" && resources(PropertyPath(role.value)).Readable? &&
              !resources(LocalPropertyPath(role.value)).Malformed?
    ensures r.Err? && r.error.FileMalformed? ==>
              role.Some? && (r.error.path == PropertyPath(role.value) || r.error.path == LocalPropertyPath(role.value)) &&
              resources(r.error.path).Malformed?
  {
    if role.None? || role.value == "" then Err(RoleRequired)
    else
      var path := PropertyPath(role.value);
      match resources(path)
      case Missing => Err(MainFileMissing(path))
      case Unreadable(_) => Err(MainFileUnreadable(path))
      case Malformed(_) => Err(FileMalformed(path))
      case Readable(entries) =>
        var localPath := LocalPropertyPath(role.value);
        if resources(localPath).Malformed? then Err(FileMalformed(localPath))
        else Ok(Merged(entries, resources(localPath), gridPort))
  }

  // ---------------------------------------------------------------------------
  // Keys of the grid namespace

  predicate IsGridKey(key: string)
  {
    |key| >= |PropertyPrefix| && key[..|PropertyPrefix|] == PropertyPrefix
  }

  /** The regular-expression `.`: any character but a line terminator. */
  predicate MatchesAnyChar(c: char)
  {
    c != '\n' && c != '\r' && c != '\U{85}' && c != '\U{2028}' && c != '\U{2029}'
  }

  /** Does the pattern "grid." (with `.` matching any character) match at index j? */
  predicate PatternAt(key: string, j: nat)
  {
    j + 5 <= |key| && key[j..j + 4] == "grid" && MatchesAnyChar(key[j + 4])
  }

  /** Start of the first match of "grid." at or after `from`, or |key| if there is none. */
  function NextMatch(key: string, from: nat): (j: nat)
    requires from <= |key|
    ensures from <= j <= |key|
    ensures j < |key| ==> PatternAt(key, j)
    ensures forall i :: from <= i < j ==> !PatternAt(key, i)
    decreases |key| - from
  {
    if from + 5 > |key| then |key|
    else if PatternAt(key, from) then from
    else NextMatch(key, from + 1)
  }

  /** `key.split("grid.")[1]`: the text between the prefix and the next match. */
  function Parameter(key: string): string
    requires IsGridKey(key)
  {
    key[5..NextMatch(key, 5)]
  }

  /** When "grid." does not occur again, the parameter is the key minus the prefix. */
  lemma ParameterIsSuffix(key: string)
    requires IsGridKey(key)
    requires forall j :: 5 <= j < |key| ==> !PatternAt(key, j)
    ensures Parameter(key) == key[|PropertyPrefix|..]
  {
  }

  /** A later occurrence of the pattern cuts the parameter short. */
  lemma ParameterStopsAtMatch(key: string, j: nat)
    requires IsGridKey(key) && 5 <= j && PatternAt(key, j)
    ensures |Parameter(key)| <= j - 5
  {
  }

  function Flag(key: string): string
    requires IsGridKey(key)
  {
    CmdParameterPrefix + Parameter(key)
  }

  predicate HasValidParameter(key: string)
  {
    IsGridKey(key) ==> !IsBlank(Parameter(key))
  }

  /** A key the loop gets past: outside the namespace, or with a parameter and a value
      whose placeholders resolve. */
  predicate Emittable(key: string, m: map<string, string>, subst: Substitution)
    requires key in m
  {
    HasValidParameter(key) && (IsGridKey(key) ==> subst(m[key], m).Some?)
  }

  /** The loop over the key set, visited in `order`: stops at the first grid key without
      a parameter or whose value cannot be resolved, and otherwise appends one flag/value
      pair per grid key. */
  function Emit(order: seq<string>, m: map<string, string>, subst: Substitution): (r: Result<seq<string>, PropertiesError>)
    requires forall k :: k in order ==> k in m
    decreases |order|
  {
    if order == [] then Ok([])
    else
      match Emit(order[..|order| - 1], m, subst)
      case Err(e) => Err(e)
      case Ok(out) =>
        var key := order[|order| - 1];
        if !IsGridKey(key) then Ok(out)
        else if IsBlank(Parameter(key)) then Err(InvalidFormat(key))
        else match subst(m[key], m)
          case None => Err(SubstitutionFailed(key))
          case Some(value) => Ok(out + [Flag(key), value])
  }

  /** Why the loop may stop at `e`: a grid key of `m` with a blank parameter, or one whose
      value the substitution rejects. */
  predicate Rejects(e: PropertiesError, m: map<string, string>, subst: Substitution)
  {
    (e.InvalidFormat? && e.key in m && IsGridKey(e.key) && IsBlank(Parameter(e.key))) ||
    (e.SubstitutionFailed? && e.key in m && IsGridKey(e.key) && !IsBlank(Parameter(e.key)) &&
     subst(m[e.key], m).None?)
  }

  /** What getProperties returns when the key set is visited in `order`: a loading error
      as it is; otherwise the arguments succeed exactly when every key of the merged map
      is emittable, and then hold one (flag, value) pair per grid key, whatever the
      order. */
  function PropertiesOutcome(role: Option<string>, resources: string -> Resource, gridPort: seq<Int32>, subst: Substitution, order: seq<string>)
    : (r: Result<seq<string>, PropertiesError>)
    requires LoadProperties(role, resources, gridPort).Ok? ==> Enumerates(order, LoadProperties(role, resources, gridPort).value.Keys)
    ensures LoadProperties(role, resources, gridPort).Err? ==> r == Err(LoadProperties(role, resources, gridPort).error)
    ensures r.Ok? <==>
              LoadProperties(role, resources, gridPort).Ok? &&
              var m := LoadProperties(role, resources, gridPort).value;
              forall k :: k in m ==> Emittable(k, m, subst)
    ensures r.Ok? ==>
              var m := LoadProperties(role, resources, gridPort).value;
              PairSet(r.value) == ExpectedPairs(m.Keys, m, subst) && |r.value| == 2 * |GridKeys(m.Keys)|
    ensures r.Err? && LoadProperties(role, resources, gridPort).Ok? ==>
              Rejects(r.error, LoadProperties(role, resources, gridPort).value, subst)
  {
    match LoadProperties(role, resources, gridPort)
    case Err(e) => Err(e)
    case Ok(m) =>
      EmitOverKeySet(order, m, subst);
      Emit(order, m, subst)
  }

  /** The (flag, value) pairs an argument list holds at its even positions. */
  function PairSet(out: seq<string>): set<(string, string)>
  {
    set i | 0 <= i < |out| / 2 :: (out[2 * i], out[2 * i + 1])
  }

  /** The pairs the merged map calls for, one per grid key whose value resolves. */
  function ExpectedPairs(keys: set<string>, m: map<string, string>, subst: Substitution): set<(string, string)>
    requires keys <= m.Keys
  {
    set k | k in keys && IsGridKey(k) && subst(m[k], m).Some? :: (Flag(k), subst(m[k], m).value)
  }

  function GridKeys(keys: set<string>): set<string>
  {
    set k | k in keys && IsGridKey(k)
  }

  // ---------------------------------------------------------------------------
  // The loader itself

  /** getProperties(role, gridPort...): the keys are visited in an unspecified order;
      `order` records the one taken. */
  method GetProperties(role: Option<string>, resources: string -> Resource, gridPort: seq<Int32>, subst: Substitution)
    returns (r: Result<seq<string>, PropertiesError>, ghost order: seq<string>)
    ensures LoadProperties(role, resources, gridPort).Ok? ==> Enumerates(order, LoadProperties(role, resources, gridPort).value.Keys)
    ensures r == PropertiesOutcome(role, resources, gridPort, subst, order)
  {
    order := [];
    if role.None? || role.value == "" {
      return Err(RoleRequired), order;
    }
    var properties: map<string, string> := map[];
    var propertyPath := PropertyPath(role.value);
    match resources(propertyPath) {
      case Missing => return Err(MainFileMissing(propertyPath)), order;
      case Unreadable(_) => return Err(MainFileUnreadable(propertyPath)), order;
      case Malformed(_) => return Err(FileMalformed(propertyPath)), order;
      case Readable(entries) => properties := properties + entries;
    }
    ghost var base := resources(propertyPath).entries;
    assert properties == base;
    // the local file overrides; a failure while reading it is only logged
    var localPropertyPath := LocalPropertyPath(role.value);
    match resources(localPropertyPath) {
      case Missing =>
      case Unreadable(partial) => properties := properties + partial;
      case Malformed(_) => return Err(FileMalformed(localPropertyPath)), order;
      case Readable(entries) => properties := properties + entries;
    }
    if |gridPort| > 0 {
      properties := properties[HubUrlPortKey := DecimalString(gridPort[0] as int)];
    }
    assert properties == Merged(base, resources(localPropertyPath), gridPort);
    assert LoadProperties(role, resources, gridPort) == Ok(properties);
    r, order := EmitArguments(properties, subst);
  }

  /** The loop of getProperties over the key set of the merged map, in the unspecified
      order of the table's keys; `order` records the one taken. */
  method EmitArguments(properties: map<string, string>, subst: Substitution)
    returns (r: Result<seq<string>, PropertiesError>, ghost order: seq<string>)
    ensures Enumerates(order, properties.Keys) && r == Emit(order, properties, subst)
  {
    order := [];
    var propertyKeysAndValues: seq<string> := [];
    var remaining := properties.Keys;
    while remaining != {}
      invariant remaining <= properties.Keys
      invariant forall k :: k in properties <==> k in remaining || k in order
      invariant forall k :: k in order ==> k !in remaining
      invariant forall i, j :: 0 <= i < j < |order| ==> order[i] != order[j]
      invariant Emit(order, properties, subst) == Ok(propertyKeysAndValues)
      decreases remaining
    {
      var key :| key in remaining;
      ghost var visited := order;
      VisitKey(visited, remaining, properties.Keys, key);
      remaining := remaining - {key};
      order := order + [key];
      assert order[..|order| - 1] == visited;
      if IsGridKey(key) {
        var parameter := Parameter(key);
        if IsBlank(parameter) {
          assert Emit(order, properties, subst) == Err(InvalidFormat(key));
          FinishAfterError(order, remaining, properties, subst);
          order := order + Enumeration(remaining);
          return Err(InvalidFormat(key)), order;
        }
        var propertyKey := CmdParameterPrefix + parameter;
        var replaced := subst(properties[key], properties);
        if replaced.None? {
          assert Emit(order, properties, subst) == Err(SubstitutionFailed(key));
          FinishAfterError(order, remaining, properties, subst);
          order := order + Enumeration(remaining);
          return Err(SubstitutionFailed(key)), order;
        }
        var propertyValue := replaced.value;
        assert Emit(order, properties, subst) == Ok(propertyKeysAndValues + [propertyKey, propertyValue]);
        propertyKeysAndValues := propertyKeysAndValues + [propertyKey, propertyValue];
      }
    }
    r := Ok(propertyKeysAndValues);
  }

  /** getHubProperties(): any failure becomes "Unable to load hub properties". */
  method GetHubProperties(resources: string -> Resource, subst: Substitution)
    returns (r: Result<seq<string>, PropertiesError>, ghost order: seq<string>)
    ensures LoadProperties(Some(HubRole), resources, []).Ok? ==> Enumerates(order, LoadProperties(Some(HubRole), resources, []).value.Keys)
    ensures r == Wrapped(HubLoadMessage, PropertiesOutcome(Some(HubRole), resources, [], subst, order))
  {
    var inner;
    inner, order := GetProperties(Some(HubRole), resources, [], subst);
    r := Wrapped(HubLoadMessage, inner);
  }

  /** getNodeProperties(port...): any failure becomes "Unable to load node properties". */
  method GetNodeProperties(resources: string -> Resource, port: seq<Int32>, subst: Substitution)
    returns (r: Result<seq<string>, PropertiesError>, ghost order: seq<string>)
    ensures LoadProperties(Some(NodeRole), resources, port).Ok? ==> Enumerates(order, LoadProperties(Some(NodeRole), resources, port).value.Keys)
    ensures r == Wrapped(NodeLoadMessage, PropertiesOutcome(Some(NodeRole), resources, port, subst, order))
  {
    var inner;
    inner, order := GetProperties(Some(NodeRole), resources, port, subst);
    r := Wrapped(NodeLoadMessage, inner);
  }

  /** The try/catch of the wrappers: a result passes, a failure is wrapped once. */
  function Wrapped(message: string, inner: Result<seq<string>, PropertiesError>): (r: Result<seq<string>, PropertiesError>)
    ensures r.Ok? <==> inner.Ok?
    ensures inner.Ok? ==> r == inner
    ensures inner.Err? ==> r.error.LoadFailed? && r.error.message == message && r.error.cause == inner.error
  {
    match inner
    case Ok(v) => Ok(v)
    case Err(e) => Err(LoadFailed(message, e))
  }

  // ---------------------------------------------------------------------------
  // Helpers for the loop

  /** Taking one more key from the remaining ones keeps the visited keys an enumeration
      of the keys taken so far. */
  lemma VisitKey(visited: seq<string>, remaining: set<string>, keys: set<string>, key: string)
    requires key in remaining
    requires forall k :: k in keys <==> k in remaining || k in visited
    requires forall k :: k in visited ==> k !in remaining
    requires forall i, j :: 0 <= i < j < |visited| ==> visited[i] != visited[j]
    ensures forall k :: k in keys <==> k in remaining - {key} || k in visited + [key]
    ensures forall k :: k in visited + [key] ==> k !in remaining - {key}
    ensures forall i, j :: 0 <= i < j < |visited + [key]| ==> (visited + [key])[i] != (visited + [key])[j]
  {
  }

  /** Where the loop throws, the keys it did not reach complete an enumeration whose
      outcome is the same error. */
  lemma FinishAfterError(order: seq<string>, remaining: set<string>, m: map<string, string>, subst: Substitution)
    requires forall k :: k in m <==> k in remaining || k in order
    requires forall k :: k in order ==> k !in remaining
    requires forall i, j :: 0 <= i < j < |order| ==> order[i] != order[j]
    requires Emit(order, m, subst).Err?
    ensures Enumerates(order + Enumeration(remaining), m.Keys)
    ensures Emit(order + Enumeration(remaining), m, subst) == Emit(order, m, subst)
  {
    var rest := Enumeration(remaining);
    EmitKeepsError(order, rest, m, subst);
    forall i, j | 0 <= i < j < |order + rest|
      ensures (order + rest)[i] != (order + rest)[j]
    {
      if j >= |order| && i < |order| {
        assert (order + rest)[j] in remaining;
      }
    }
  }

  /** Once the loop has failed, visiting more keys does not change the outcome. */
  lemma {:induction false} EmitKeepsError(order: seq<string>, rest: seq<string>, m: map<string, string>, subst: Substitution)
    requires forall k :: k in order + rest ==> k in m
    requires Emit(order, m, subst).Err?
    ensures Emit(order + rest, m, subst) == Emit(order, m, subst)
    decreases |rest|
  {
    if rest != [] {
      var whole := order + rest;
      var front := order + rest[..|rest| - 1];
      assert whole[..|whole| - 1] == front;
      EmitKeepsError(order, rest[..|rest| - 1], m, subst);
      assert Emit(front, m, subst).Err?;
      assert Emit(whole, m, subst) == Emit(front, m, subst);
    } else {
      assert order + rest == order;
    }
  }

  // ---------------------------------------------------------------------------
  // Properties of the emitted arguments

  /** The loop fails exactly when some visited grid key has a blank parameter or a value
      that does not resolve, and then names such a key. */
  lemma {:induction false} EmitFailsIffBadKey(order: seq<string>, m: map<string, string>, subst: Substitution)
    requires forall k :: k in order ==> k in m
    ensures Emit(order, m, subst).Ok? <==> forall k :: k in order ==> Emittable(k, m, subst)
    ensures Emit(order, m, subst).Err? ==>
              var e := Emit(order, m, subst).error;
              Rejects(e, m, subst) && e.key in order
    decreases |order|
  {
    if order != [] {
      var front := order[..|order| - 1];
      var key := order[|order| - 1];
      assert forall k :: k in order <==> k in front || k == key;
      EmitFailsIffBadKey(front, m, subst);
      if Emit(front, m, subst).Ok? {
        assert Emit(order, m, subst).Ok? <==> Emittable(key, m, subst);
      } else {
        assert Emit(order, m, subst) == Emit(front, m, subst);
      }
    }
  }

  /** Each visited grid key contributes exactly one pair. */
  lemma {:induction false} EmitPairs(order: seq<string>, m: map<string, string>, subst: Substitution)
    requires forall k :: k in order ==> k in m
    requires Emit(order, m, subst).Ok?
    ensures var out := Emit(order, m, subst).value;
            |out| % 2 == 0 &&
            PairSet(out) == ExpectedPairs((set k | k in order), m, subst)
    decreases |order|
  {
    if order != [] {
      var front := order[..|order| - 1];
      var key := order[|order| - 1];
      EmitPairs(front, m, subst);
      var before := Emit(front, m, subst).value;
      var out := Emit(order, m, subst).value;
      assert (set k | k in order) == (set k | k in front) + {key};
      if IsGridKey(key) {
        assert out == before + [Flag(key), subst(m[key], m).value];
        PairSetAppend(before, Flag(key), subst(m[key], m).value);
      }
    }
  }

  lemma PairSetAppend(out: seq<string>, flag: string, value: string)
    requires |out| % 2 == 0
    ensures PairSet(out + [flag, value]) == PairSet(out) + {(flag, value)}
  {
    var ext := out + [flag, value];
    var n := |out| / 2;
    assert ext[2 * n] == flag && ext[2 * n + 1] == value;
    forall p | p in PairSet(ext)
      ensures p in PairSet(out) + {(flag, value)}
    {
      var i :| 0 <= i < |ext| / 2 && p == (ext[2 * i], ext[2 * i + 1]);
      if i < n {
        assert ext[2 * i] == out[2 * i] && ext[2 * i + 1] == out[2 * i + 1];
      }
    }
    forall p | p in PairSet(out)
      ensures p in PairSet(ext)
    {
      var i :| 0 <= i < |out| / 2 && p == (out[2 * i], out[2 * i + 1]);
      assert ext[2 * i] == out[2 * i] && ext[2 * i + 1] == out[2 * i + 1];
    }
  }

  /** The argument list is twice as long as the number of distinct grid keys visited. */
  lemma {:induction false} EmitLength(order: seq<string>, m: map<string, string>, subst: Substitution)
    requires forall k :: k in order ==> k in m
    requires forall i, j :: 0 <= i < j < |order| ==> order[i] != order[j]
    requires Emit(order, m, subst).Ok?
    ensures |Emit(order, m, subst).value| == 2 * |GridKeys(set k | k in order)|
    decreases |order|
  {
    if order != [] {
      var front := order[..|order| - 1];
      var key := order[|order| - 1];
      assert Emit(front, m, subst).Ok?;
      EmitLength(front, m, subst);
      var seen := set k | k in front;
      assert (set k | k in order) == seen + {key};
      assert key !in seen by {
        assert forall i :: 0 <= i < |front| ==> front[i] == order[i];
      }
      GridKeysAdd(seen, key);
    }
  }

  lemma GridKeysAdd(keys: set<string>, key: string)
    requires key !in keys
    ensures |GridKeys(keys + {key})| == |GridKeys(keys)| + (if IsGridKey(key) then 1 else 0)
  {
    if IsGridKey(key) {
      assert GridKeys(keys + {key}) == GridKeys(keys) + {key};
    } else {
      assert GridKeys(keys + {key}) == GridKeys(keys);
    }
  }

  /** Whatever order the key set is visited in, the emitted pairs are the ones the merged
      map calls for, and the list holds two entries per grid key. */
  lemma OrderIndependent(order: seq<string>, m: map<string, string>, subst: Substitution)
    requires Enumerates(order, m.Keys)
    requires forall k :: k in m ==> Emittable(k, m, subst)
    ensures Emit(order, m, subst).Ok?
    ensures PairSet(Emit(order, m, subst).value) == ExpectedPairs(m.Keys, m, subst)
    ensures |Emit(order, m, subst).value| == 2 * |GridKeys(m.Keys)|
  {
    EmitFailsIffBadKey(order, m, subst);
    EmitPairs(order, m, subst);
    EmitLength(order, m, subst);
    assert (set k | k in order) == m.Keys;
  }

  /** The loop over an enumeration of the whole key set: it fails exactly when some grid
      key has a blank parameter or an unresolvable value, and otherwise emits the pairs
      the map calls for. */
  lemma EmitOverKeySet(order: seq<string>, m: map<string, string>, subst: Substitution)
    requires Enumerates(order, m.Keys)
    ensures Emit(order, m, subst).Ok? <==> forall k :: k in m ==> Emittable(k, m, subst)
    ensures Emit(order, m, subst).Ok? ==>
              PairSet(Emit(order, m, subst).value) == ExpectedPairs(m.Keys, m, subst) &&
              |Emit(order, m, subst).value| == 2 * |GridKeys(m.Keys)|
    ensures Emit(order, m, subst).Err? ==> Rejects(Emit(order, m, subst).error, m, subst)
  {
    EmitFailsIffBadKey(order, m, subst);
    if forall k :: k in m ==> Emittable(k, m, subst) {
      OrderIndependent(order, m, subst);
    }
  }

  /** A key set in both files takes the local file's value (the port override aside). */
  lemma LocalOverridesBase(role: string, resources: string -> Resource, gridPort: seq<Int32>, key: string)
    requires role != ""
    requires resources(PropertyPath(role)).Readable? && resources(LocalPropertyPath(role)).Readable?
    requires key in resources(PropertyPath(role)).entries && key in resources(LocalPropertyPath(role)).entries
    requires |gridPort| == 0 || key != HubUrlPortKey
    ensures LoadProperties(Some(role), resources, gridPort).Ok?
    ensures LoadProperties(Some(role), resources, gridPort).value[key] == resources(LocalPropertyPath(role)).entries[key]
  {
  }

  /** A missing local file, or one whose reading failed before any entry, leaves the
      base file's map (the port override aside). */
  lemma MissingLocalIsBaseOnly(base: map<string, string>, local: Resource, gridPort: seq<Int32>)
    requires local.Missing? || local == Unreadable(map[])
    ensures Merged(base, local, gridPort) ==
              if |gridPort| > 0 then base[HubUrlPortKey := DecimalString(gridPort[0] as int)] else base
  {
  }

  /** The port override is the decimal text of the port and reads back as that port. */
  lemma PortOverrideReadsBack(base: map<string, string>, local: Resource, gridPort: seq<Int32>)
    requires |gridPort| > 0
    ensures ParseInt(Merged(base, local, gridPort)[HubUrlPortKey]) == Some(gridPort[0])
  {
    ParseDecimalRoundTrip(gridPort[0]);
  }

  /** hub.url.port lies outside the grid namespace: on its own it adds no argument. */
  lemma PortKeyEmitsNothing()
    ensures !IsGridKey(HubUrlPortKey)
  {
    assert HubUrlPortKey[0] != PropertyPrefix[0];
  }

  /** A resolver for values without placeholders: the value itself. */
  function NoPlaceholders(value: string, properties: map<string, string>): Option<string> { Some(value) }

  /** grid.port=4444 in the base file and grid.port=5555 in the local one give exactly
      "-port", "5555". */
  lemma LocalPortScenario(resources: string -> Resource, order: seq<string>)
    requires resources(PropertyPath(HubRole)) == Readable(map["grid.port" := "4444"])
    requires resources(LocalPropertyPath(HubRole)) == Readable(map["grid.port" := "5555"])
    requires Enumerates(order, LoadProperties(Some(HubRole), resources, []).value.Keys)
    ensures Emit(order, LoadProperties(Some(HubRole), resources, []).value, NoPlaceholders) == Ok(["-port", "5555"])
  {
    var m := LoadProperties(Some(HubRole), resources, []).value;
    assert m == map["grid.port" := "5555"] by {
      assert m == Merged(map["grid.port" := "4444"], Readable(map["grid.port" := "5555"]), []);
    }
    PortScenarioPairs(m);
    OrderIndependent(order, m, NoPlaceholders);
    SinglePair(Emit(order, m, NoPlaceholders).value, "-port", "5555");
  }

  /** A two-element argument list holding one pair is that pair. */
  lemma SinglePair(out: seq<string>, flag: string, value: string)
    requires |out| == 2 && PairSet(out) == {(flag, value)}
    ensures out == [flag, value]
  {
    assert (out[0], out[1]) in PairSet(out);
  }

  lemma PortScenarioPairs(m: map<string, string>)
    requires m == map["grid.port" := "5555"]
    ensures forall k :: k in m ==> Emittable(k, m, NoPlaceholders)
    ensures GridKeys(m.Keys) == {"grid.port"}
    ensures ExpectedPairs(m.Keys, m, NoPlaceholders) == {("-port", "5555")}
  {
    assert IsGridKey("grid.port");
    assert Parameter("grid.port") == "port" by {
      assert !PatternAt("grid.port", 5);
      assert NextMatch("grid.port", 5) == 9;
    }
    assert !IsBlank("port") by { assert !IsWhitespace("port"[0]); }
    assert Flag("grid.port") == "-port";
  }

  /** A value whose placeholder refers to its own key, which StrSubstitutor rejects as a
      cyclic reference, fails the loop although the key has a parameter. */
  lemma CyclicReferenceFails(subst: Substitution)
    requires subst("${grid.a}", map["grid.a" := "${grid.a}"]).None?
    ensures Emit(["grid.a"], map["grid.a" := "${grid.a}"], subst) == Err(SubstitutionFailed("grid.a"))
  {
    var key := "grid.a";
    assert IsGridKey(key);
    assert NextMatch(key, 5) == 6;
    assert Parameter(key) == "a";
    assert !IsBlank("a") by { assert !IsWhitespace("a"[0]); }
    assert [key][..0] == [];
  }

  /** A parameter made of a non-ASCII space, such as the ideographic space, is blank. */
  lemma WideSpaceParameterIsInvalid(value: string, subst: Substitution)
    ensures Emit(["grid.\U{3000}"], map["grid.\U{3000}" := value], subst) == Err(InvalidFormat("grid.\U{3000}"))
  {
    var key := "grid.\U{3000}";
    assert IsGridKey(key);
    assert NextMatch(key, 5) == 6;
    assert Parameter(key) == "\U{3000}";
    assert ["grid.\U{3000}"][..0] == [];
  }
}
