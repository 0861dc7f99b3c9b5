/** The `challenges` projection of an authorization: each raw challenge
    descriptor the server sent becomes a typed challenge, and the `http01` /
    `dns01` finders pick the first challenge of one kind.
 */
module ChallengeDispatch {
  import opened RubyValues

  /** The challenge classes the finders test with `is_a?`; every other class
      the factory may build is `OtherKind`. */
  datatype Kind = Http01 | Dns01 | OtherKind

  /** The keyword arguments handed to the challenge factory. */
  datatype ChallengeArgs = ChallengeArgs(
    challengeType: Json,
    status: Json,
    url: Json,
    token: Json,
    error: Json)

  /** The challenge factory, reduced to which class it instantiates, or to a
      raise. How it chooses, and which arguments it refuses, is not part of
      this model. */
  type Classifier = ChallengeArgs -> Outcome<Kind>

  /** A typed challenge: the class the factory chose and the arguments it got. */
  datatype Challenge = Challenge(kind: Kind, args: ChallengeArgs)

  /** The descriptor keys `initialize_challenge` fetches; `error` is optional. */
  const DescriptorKeys: set<string> := {"type", "status", "url", "token"}

  /** A raw descriptor the projection accepts: a hash holding every required key. */
  predicate IsDescriptor(d: Json)
  {
    d.Obj? && DescriptorKeys <= d.fields.Keys
  }

  /** The factory arguments a descriptor names: the four required values,
      and `error` or nil. */
  function DescriptorArgs(d: Json): ChallengeArgs
    requires IsDescriptor(d)
  {
    ChallengeArgs(d.fields["type"], d.fields["status"], d.fields["url"], d.fields["token"],
                  if "error" in d.fields then d.fields["error"] else Null)
  }

  /** A descriptor from which a challenge can be built: well-formed, and the
      factory accepts its arguments. */
  predicate Builds(d: Json, classify: Classifier)
  {
    IsDescriptor(d) && classify(DescriptorArgs(d)).Returned?
  }

  /** `initialize_challenge`: fetch the four required keys, read `error` with a
      nil default, and let the factory build the challenge. */
  function InitializeChallenge(d: Json, classify: Classifier): (r: Outcome<Challenge>)
    ensures r.Returned? <==> Builds(d, classify)
    ensures r.Returned? ==>
      && r.value.args.challengeType == d.fields["type"]
      && r.value.args.status == d.fields["status"]
      && r.value.args.url == d.fields["url"]
      && r.value.args.token == d.fields["token"]
      && r.value.args.error == (if "error" in d.fields then d.fields["error"] else Null)
      && classify(r.value.args) == Returned(r.value.kind)
  {
    var challengeType :- Fetch(d, "type");
    var status :- Fetch(d, "status");
    var url :- Fetch(d, "url");
    var token :- Fetch(d, "token");
    var args := ChallengeArgs(challengeType, status, url, token, Lookup(d.fields, "error"));
    var kind :- classify(args);
    Returned(Challenge(kind, args))
  }

  /** Array#map over the descriptors with `initialize_challenge`: the first
      descriptor that is malformed or that the factory refuses raises,
      otherwise element i is built from descriptor i. */
  function MapChallenges(ds: seq<Json>, classify: Classifier): (r: Outcome<seq<Challenge>>)
    ensures r.Returned? <==> forall i :: 0 <= i < |ds| ==> Builds(ds[i], classify)
    ensures r.Returned? ==>
      && |r.value| == |ds|
      && forall i :: 0 <= i < |ds| ==> InitializeChallenge(ds[i], classify) == Returned(r.value[i])
  {
    if |ds| == 0 then Returned([])
    else
      var c :- InitializeChallenge(ds[0], classify);
      var rest :- MapChallenges(ds[1..], classify);
      assert forall i :: 1 <= i < |ds| ==> ds[i] == ds[1..][i - 1];
      Returned([c] + rest)
  }

  /** `@challenges.map { ... }` on whatever the instance variable holds. An
      array maps element-wise. Hash#map hands the block `[key, value]` pairs,
      on which `fetch('type')` raises, so only the empty hash maps (to the
      empty list). nil, scalars and instants have no `map`. */
  function ChallengeList(raw: Value, classify: Classifier): (r: Outcome<seq<Challenge>>)
    ensures raw.Data? && raw.json.Arr? ==> r == MapChallenges(raw.json.items, classify)
    ensures raw.Data? && raw.json.Obj? ==> (r.Returned? <==> raw.json.fields == map[])
    ensures r.Returned? ==> raw.Data? && (raw.json.Arr? || raw.json == Obj(map[]))
    ensures raw == Data(Obj(map[])) ==> r == Returned([])
  {
    match raw
    case Data(Arr(ds)) => MapChallenges(ds, classify)
    case Data(Obj(m)) => if m == map[] then Returned([]) else Raised
    case _ => Raised
  }

  /** Enumerable#find with an `is_a?` test: the first challenge of kind `k`,
      or nil when there is none. */
  function First(cs: seq<Challenge>, k: Kind): (r: Option<Challenge>)
    ensures r.None? <==> forall i :: 0 <= i < |cs| ==> cs[i].kind != k
    ensures r.Some? ==> exists i :: 0 <= i < |cs| && IsFirstOfKind(cs, k, i) && cs[i] == r.value
  {
    if |cs| == 0 then None
    else if cs[0].kind == k then Some(cs[0])
    else
      var r := First(cs[1..], k);
      if r.Some? then
        var j :| 0 <= j < |cs| - 1 && IsFirstOfKind(cs[1..], k, j) && cs[1..][j] == r.value;
        assert IsFirstOfKind(cs, k, j + 1);
        r
      else
        assert forall i :: 1 <= i < |cs| ==> cs[i] == cs[1..][i - 1];
        r
  }

  /** Position i holds a challenge of kind k and no earlier position does. */
  predicate IsFirstOfKind(cs: seq<Challenge>, k: Kind, i: int)
  {
    && 0 <= i < |cs|
    && cs[i].kind == k
    && forall j :: 0 <= j < i ==> cs[j].kind != k
  }
}
