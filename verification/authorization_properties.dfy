/** Properties relating several calls on the authorization model: parsing
    then constructing, assigning then snapshotting, refreshing then asking a
    finder again.
 */
module AuthorizationProperties {
  import opened RubyValues
  import opened ChallengeDispatch
  import opened AuthorizationModel

  /** The keys `arguments_from_response` fetches without a default. */
  const RequiredKeys: set<string> := {"identifier", "status", "expires", "challenges"}

  /** Each required key, the identifier's `value`, and a readable `expires`
      is needed on its own: removing any one of them makes parsing raise. */
  lemma ParseNeedsEveryRequiredField(body: Json, parseTime: TimeParser, key: string)
    requires WellFormedResponse(body, parseTime)
    ensures key in RequiredKeys ==> ArgumentsFromResponse(Obj(body.fields - {key}), parseTime).Raised?
    ensures ArgumentsFromResponse(
      Obj(body.fields["identifier" := Obj(body.fields["identifier"].fields - {"value"})]),
      parseTime).Raised?
    ensures forall unreadable: TimeParser :: unreadable(body.fields["expires"]).Raised? ==>
      ArgumentsFromResponse(body, unreadable).Raised?
  {
  }

  /** No status is rejected: replacing the status by any JSON value still
      parses, and the value is passed through unchanged. */
  lemma StatusIsNotChecked(body: Json, parseTime: TimeParser, status: Json)
    requires WellFormedResponse(body, parseTime)
    ensures var r := ArgumentsFromResponse(Obj(body.fields["status" := status]), parseTime);
      r.Returned? && r.value["status"] == Data(status)
  {
  }

  /** The parsed hash lacks `url`, so it cannot be assigned on its own; with a
      url added it binds, and the new object carries every parsed value except
      identifier and domain, which stay nil. */
  lemma ParsedArgumentsNeedUrl(body: Json, parseTime: TimeParser, url: Value)
    requires ArgumentsFromResponse(body, parseTime).Returned?
    ensures New(ArgumentsFromResponse(body, parseTime).value).Raised?
    ensures var args := ArgumentsFromResponse(body, parseTime).value["url" := url];
      && New(args).Returned?
      && New(args).value.fields == Fields(
        url,
        Nil,
        Nil,
        args["status"],
        args["expires"],
        args["challenges"],
        args["wildcard"])
  {
  }

  /** Snapshot after assignment: `to_h` gives back the assigned hash, except
      that identifier and domain are whatever the object held before (nil
      for a new object), never the arguments. */
  lemma SnapshotAfterAssign(f: Fields, args: Args)
    requires args.Keys == Keywords
    ensures ToH(Assign(f, args).value) ==
      args["identifier" := f.identifier]["domain" := f.domain]
  {
  }

  /** A new object's snapshot differs from its arguments exactly in
      identifier and domain, which read nil. */
  lemma SnapshotOfNewObject(args: Args)
    requires args.Keys == Keywords
    ensures ToH(New(args).value.fields) == args["identifier" := Nil]["domain" := Nil]
  {
  }

  /** Assignment from a snapshot, which is what reload receives from the
      client: the object takes over every stored instance variable of the
      snapshotted one and keeps its own identifier and domain. */
  lemma AssignFromSnapshot(f: Fields, g: Fields)
    ensures Assign(g, ToH(f)) == Returned(f.(identifier := g.identifier, domain := g.domain))
  {
  }

  /** What assignment leaves behind does not depend on the earlier instance
      variables, apart from the two it never writes; assigning the same hash
      twice is the same as once. */
  lemma AssignOverwrites(f1: Fields, f2: Fields, args: Args)
    requires args.Keys == Keywords
    ensures Assign(f1, args).value.(identifier := f2.identifier, domain := f2.domain)
      == Assign(f2, args).value
    ensures Assign(Assign(f1, args).value, args) == Assign(f1, args)
  {
  }

  /** A successful refresh moves the url too: after `reload` or `deactivate`
      the object answers to whatever url the client's hash named. */
  lemma RefreshReplacesUrl(s: State, client: Gateway)
    ensures var reply := client(FetchAuthorization(s.fields.url));
      reply.Returned? && reply.value.Keys == Keywords ==>
        Reload(s, client).post.fields.url == reply.value["url"]
    ensures var reply := client(DeactivateAuthorization(s.fields.url));
      reply.Returned? && reply.value.Keys == Keywords ==>
        Deactivate(s, client).post.fields.url == reply.value["url"]
  {
  }

  /** The projection never looks at the finder memos: whatever they hold,
      `challenges` answers the same. */
  lemma ChallengesIgnoreMemos(s: State, http01: Option<Challenge>, dns01: Option<Challenge>,
                              classify: Classifier)
    ensures Challenges(s.(http01 := http01, dns01 := dns01), classify) == Challenges(s, classify)
  {
  }

  /** A cached finder result outlives any refresh: after `reload` or
      `deactivate`, successful or not, the finder returns the cached
      challenge without looking at the new descriptors. */
  lemma CachedFinderSurvivesRefresh(s: State, reply: Outcome<Args>, which: Finder, classify: Classifier)
    requires Memo(s, which).Some?
    ensures var post := Refresh(s, reply).post;
      Find(post, which, classify) == Effect(post, Returned(Memo(s, which)))
  {
  }

  /** A nil finder result is not cached: the memo stays nil, so after a
      refresh the finder searches the new descriptors. */
  lemma NilFinderResultIsRecomputed(s: State, reply: Outcome<Args>, which: Finder, classify: Classifier)
    requires Memo(s, which).None?
    requires Find(s, which, classify).out == Returned(None)
    ensures Memo(Find(s, which, classify).post, which).None?
    ensures var refreshed := Refresh(Find(s, which, classify).post, reply).post;
      var cs := Challenges(refreshed, classify);
      cs.Returned? ==> Find(refreshed, which, classify).out == Returned(First(cs.value, which.Target()))
  {
  }

  /** Asking a finder twice in a row is asking it once: the second call
      returns the same answer and leaves the object as the first did. */
  lemma FindIsIdempotent(s: State, which: Finder, classify: Classifier)
    ensures var e := Find(s, which, classify);
      Find(e.post, which, classify) == e
  {
  }

  /** The two finders do not interfere: asking one first does not change what
      the other answers. */
  lemma FindersAreIndependent(s: State, classify: Classifier)
    ensures Find(Find(s, FindHttp01, classify).post, FindDns01, classify).out
      == Find(s, FindDns01, classify).out
    ensures Find(Find(s, FindDns01, classify).post, FindHttp01, classify).out
      == Find(s, FindHttp01, classify).out
  {
  }

  /** A classifier by type tag, used only to exhibit the stale cache below. */
  function TagKind(a: ChallengeArgs): Outcome<Kind>
  {
    if a.challengeType == Str("http-01") then Returned(Http01)
    else if a.challengeType == Str("dns-01") then Returned(Dns01)
    else Returned(OtherKind)
  }

  /** An http-01 descriptor as first sent, and as reported after validation. */
  const PendingHttp: Json := Obj(map["type" := Str("http-01"), "status" := Str("pending"),
                                     "url" := Str("https://ca/chall/1"), "token" := Str("t")])
  const ValidHttp: Json := Obj(map["type" := Str("http-01"), "status" := Str("valid"),
                                   "url" := Str("https://ca/chall/1"), "token" := Str("t")])

  /** Constructor arguments for an authorization holding the given descriptors. */
  function ArgsWith(descriptors: seq<Json>): Args
  {
    map["url" := Data(Str("https://ca/authz/1")), "identifier" := Nil,
        "domain" := Nil, "status" := Data(Str("pending")),
        "expires" := Instant(Time(0)), "challenges" := Data(Arr(descriptors)),
        "wildcard" := Data(Bool(false))]
  }

  /** A one-descriptor array projects to the one challenge built from it. */
  lemma SingleDescriptorMaps(d: Json, classify: Classifier)
    requires InitializeChallenge(d, classify).Returned?
    ensures MapChallenges([d], classify) == Returned([InitializeChallenge(d, classify).value])
  {
    assert forall i :: 0 <= i < 1 ==> Builds([d][i], classify);
    var m := MapChallenges([d], classify);
    assert |m.value| == 1;
    assert InitializeChallenge([d][0], classify) == Returned(m.value[0]);
    assert m.value == [m.value[0]];
  }

  /** The cache goes stale: an http-01 challenge cached while pending is
      still returned, pending, after a reload in which the server reports it
      valid, although the fresh projection holds the valid one. */
  lemma CachedChallengeGoesStale()
    ensures New(ArgsWith([PendingHttp])).Returned?
    ensures
      var s1 := Find(New(ArgsWith([PendingHttp])).value, FindHttp01, TagKind).post;
      var s2 := Refresh(s1, Returned(ArgsWith([ValidHttp]))).post;
      && Find(s2, FindHttp01, TagKind).out == Returned(Some(Challenge(Http01, DescriptorArgs(PendingHttp))))
      && Challenges(s2, TagKind) == Returned([Challenge(Http01, DescriptorArgs(ValidHttp))])
  {
    assert ArgsWith([PendingHttp]).Keys == Keywords;
    assert ArgsWith([ValidHttp]).Keys == Keywords;
    var pending := Challenge(Http01, DescriptorArgs(PendingHttp));
    var valid := Challenge(Http01, DescriptorArgs(ValidHttp));
    assert InitializeChallenge(PendingHttp, TagKind) == Returned(pending);
    assert InitializeChallenge(ValidHttp, TagKind) == Returned(valid);
    SingleDescriptorMaps(PendingHttp, TagKind);
    SingleDescriptorMaps(ValidHttp, TagKind);
    var s0 := New(ArgsWith([PendingHttp])).value;
    assert Challenges(s0, TagKind) == Returned([pending]);
    var s1 := Find(s0, FindHttp01, TagKind).post;
    assert s1.http01 == Some(pending);
    var s2 := Refresh(s1, Returned(ArgsWith([ValidHttp]))).post;
    assert s2.http01 == Some(pending);
    assert s2.fields.challenges == Data(Arr([ValidHttp]));
  }
}
