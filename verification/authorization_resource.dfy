/** The authorization resource as an object: `reload` and `deactivate`
    change its instance variables in place, so every reference a caller holds
    (a polling loop, say) sees the new state. Each method does what the
    corresponding function of AuthorizationModel says.
 */
module AuthorizationResource {
  import opened RubyValues
  import opened ChallengeDispatch
  import opened AuthorizationModel

  class Authorization {
    var url: Value
    var identifier: Value
    var domain: Value
    var status: Value
    var expires: Value
    var rawChallenges: Value
    var wildcard: Value
    var http01Memo: Option<Challenge>
    var dns01Memo: Option<Challenge>

    /** The challenge factory this object hands descriptors to. */
    const classify: Classifier

    /** The object's instance variables and memos as one value. */
    function Snapshot(): State
      reads this
    {
      State(
        Fields(url, identifier, domain, status, expires, rawChallenges, wildcard),
        http01Memo,
        dns01Memo)
    }

    /** What every object built by `Create` keeps: `assign_attributes` never
        writes identifier or domain, so both stay nil. */
    predicate Valid()
      reads this
    {
      identifier == Nil && domain == Nil
    }

    /** Builds the object `Create` returns; not a Ruby entry point, and it
        takes any state, so only `Create` establishes `Valid`. */
    constructor FromState(classify: Classifier, s: State)
      ensures Snapshot() == s && this.classify == classify
    {
      this.classify := classify;
      url := s.fields.url;
      identifier := s.fields.identifier;
      domain := s.fields.domain;
      status := s.fields.status;
      expires := s.fields.expires;
      rawChallenges := s.fields.challenges;
      wildcard := s.fields.wildcard;
      http01Memo := s.http01;
      dns01Memo := s.dns01;
    }

    /** `Authorization.new(client, **args)`: no object when assignment raises. */
    static method Create(classify: Classifier, args: Args) returns (r: Outcome<Authorization>)
      ensures r.Returned? <==> args.Keys == Keywords
      ensures r.Returned? ==>
        && fresh(r.value)
        && r.value.Snapshot() == New(args).value
        && r.value.classify == classify
        && r.value.Valid()
    {
      var made := New(args);
      if made.Raised? {
        r := Raised;
      } else {
        var a := new Authorization.FromState(classify, made.value);
        r := Returned(a);
      }
    }

    /** Install a post-state; the object itself stays the same. */
    method Publish(s: State)
      modifies this
      ensures Snapshot() == s
    {
      url := s.fields.url;
      identifier := s.fields.identifier;
      domain := s.fields.domain;
      status := s.fields.status;
      expires := s.fields.expires;
      rawChallenges := s.fields.challenges;
      wildcard := s.fields.wildcard;
      http01Memo := s.http01;
      dns01Memo := s.dns01;
    }

    /** `reload`. */
    method Reload(client: Gateway) returns (out: Outcome<bool>)
      modifies this
      ensures RefreshedFrom(old(Snapshot()), client(FetchAuthorization(old(url))),
                            Effect(Snapshot(), out))
      ensures old(Valid()) ==> Valid()
    {
      var e := AuthorizationModel.Reload(Snapshot(), client);
      Publish(e.post);
      out := e.out;
    }

    /** `deactivate`. */
    method Deactivate(client: Gateway) returns (out: Outcome<bool>)
      modifies this
      ensures RefreshedFrom(old(Snapshot()), client(DeactivateAuthorization(old(url))),
                            Effect(Snapshot(), out))
      ensures old(Valid()) ==> Valid()
    {
      var e := AuthorizationModel.Deactivate(Snapshot(), client);
      Publish(e.post);
      out := e.out;
    }

    /** `http01`, aliased as `http`. */
    method Http01() returns (out: Outcome<Option<Challenge>>)
      modifies this
      ensures Snapshot() == Find(old(Snapshot()), FindHttp01, classify).post
      ensures out == Find(old(Snapshot()), FindHttp01, classify).out
      ensures old(Valid()) ==> Valid()
    {
      var e := Find(Snapshot(), FindHttp01, classify);
      Publish(e.post);
      out := e.out;
    }

    /** `dns01`, aliased as `dns`. */
    method Dns01() returns (out: Outcome<Option<Challenge>>)
      modifies this
      ensures Snapshot() == Find(old(Snapshot()), FindDns01, classify).post
      ensures out == Find(old(Snapshot()), FindDns01, classify).out
      ensures old(Valid()) ==> Valid()
    {
      var e := Find(Snapshot(), FindDns01, classify);
      Publish(e.post);
      out := e.out;
    }

    /** `challenges`: a fresh projection of the stored descriptors. */
    function Challenges(): Outcome<seq<Challenge>>
      reads this
    {
      ChallengeList(rawChallenges, classify)
    }

    /** `to_h`. */
    function ToH(): Args
      reads this
    {
      AuthorizationModel.ToH(Snapshot().fields)
    }
  }
}
