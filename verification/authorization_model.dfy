/** The client-side view of an ACME Authorization Object (section 7.1.4 of
    RFC 8555) as pure functions over the resource's instance variables:
    parsing a server response into constructor arguments, assigning them,
    refreshing through the client (reload, and deactivation per section 7.5.2
    of RFC 8555), the memoised `http01` / `dns01` finders, and `to_h`.
 */
module AuthorizationModel {
  import opened RubyValues
  import opened ChallengeDispatch

  /** The keywords `assign_attributes` declares, all required. */
  const Keywords: set<string> :=
    {"url", "status", "expires", "challenges", "identifier", "domain", "wildcard"}

  /** The keys of the hash `arguments_from_response` builds: no `url`. */
  const ParsedKeys: set<string> :=
    {"identifier", "domain", "status", "expires", "challenges", "wildcard"}

  /** Time.parse, which raises on text it cannot read. */
  type TimeParser = Json -> Outcome<Time>

  /** A body `arguments_from_response` accepts: a hash whose `identifier` is a
      hash with a `value`, which has `status`, `expires` and `challenges`, and
      whose `expires` parses. Nothing is asked of the values' types. */
  predicate WellFormedResponse(body: Json, parseTime: TimeParser)
  {
    && body.Obj?
    && "identifier" in body.fields
    && body.fields["identifier"].Obj?
    && "value" in body.fields["identifier"].fields
    && "status" in body.fields
    && "expires" in body.fields
    && parseTime(body.fields["expires"]).Returned?
    && "challenges" in body.fields
  }

  /** `arguments_from_response`: the keyword arguments for a new resource,
      minus the `url`, which the caller adds. */
  function ArgumentsFromResponse(body: Json, parseTime: TimeParser): (r: Outcome<Args>)
    ensures r.Returned? <==> WellFormedResponse(body, parseTime)
    ensures r.Returned? ==>
      && r.value.Keys == ParsedKeys
      && "url" !in r.value
      && r.value["identifier"] == Data(body.fields["identifier"])
      && r.value["domain"] == Data(body.fields["identifier"].fields["value"])
      && r.value["status"] == Data(body.fields["status"])
      && r.value["expires"] == Instant(parseTime(body.fields["expires"]).value)
      && r.value["challenges"] == Data(body.fields["challenges"])
    ensures r.Returned? && "wildcard" !in body.fields ==> r.value["wildcard"] == Data(Bool(false))
    ensures r.Returned? && "wildcard" in body.fields ==> r.value["wildcard"] == Data(body.fields["wildcard"])
  {
    var identifier :- Fetch(body, "identifier");
    var domain :- Fetch(identifier, "value");
    var status :- Fetch(body, "status");
    var expiresText :- Fetch(body, "expires");
    var expires :- parseTime(expiresText);
    var challenges :- Fetch(body, "challenges");
    var wildcard := FetchOr(body.fields, "wildcard", Bool(false));
    Returned(map[
      "identifier" := Data(identifier),
      "domain" := Data(domain),
      "status" := Data(status),
      "expires" := Instant(expires),
      "challenges" := Data(challenges),
      "wildcard" := Data(wildcard)])
  }

  /** The instance variables behind the readers and `to_h`; `challenges` is
      the raw descriptor value (`@challenges`). */
  datatype Fields = Fields(
    url: Value,
    identifier: Value,
    domain: Value,
    status: Value,
    expires: Value,
    challenges: Value,
    wildcard: Value)

  /** A fresh object: every instance variable is nil. */
  const Unset: Fields := Fields(Nil, Nil, Nil, Nil, Nil, Nil, Nil)

  /** The five instance variables `assign_attributes` writes hold the
      arguments of the same name. */
  predicate Carries(f: Fields, args: Args)
  {
    && Keywords <= args.Keys
    && f.url == args["url"]
    && f.status == args["status"]
    && f.expires == args["expires"]
    && f.challenges == args["challenges"]
    && f.wildcard == args["wildcard"]
  }

  /** `assign_attributes(**args)`. Binding fails with ArgumentError unless the
      hash has exactly the seven keywords (a missing one, or an unknown one,
      since there is no `**rest`), before any instance variable changes.
      `identifier` and `domain` are bound but never stored. */
  function Assign(f: Fields, args: Args): (r: Outcome<Fields>)
    ensures r.Returned? <==> args.Keys == Keywords
    ensures r.Returned? ==> Carries(r.value, args)
    ensures r.Returned? ==> r.value.identifier == f.identifier && r.value.domain == f.domain
  {
    if args.Keys != Keywords then Raised
    else Returned(f.(
      url := args["url"],
      status := args["status"],
      expires := args["expires"],
      challenges := args["challenges"],
      wildcard := args["wildcard"]))
  }

  /** `to_h`: the current instance variables under their keyword names, with
      the raw descriptors rather than typed challenges. */
  function ToH(f: Fields): (h: Args)
    ensures h.Keys == Keywords
    ensures Carries(f, h)
    ensures h["identifier"] == f.identifier && h["domain"] == f.domain
  {
    map[
      "url" := f.url,
      "identifier" := f.identifier,
      "domain" := f.domain,
      "status" := f.status,
      "expires" := f.expires,
      "challenges" := f.challenges,
      "wildcard" := f.wildcard]
  }

  /** The whole object: its instance variables and the two finder memos
      (`@http01`, `@dns01`), each nil or a challenge. */
  datatype State = State(fields: Fields, http01: Option<Challenge>, dns01: Option<Challenge>)

  /** What a call leaves behind: the object's state afterwards, and what the
      call returned or that it raised. */
  datatype Effect<+T> = Effect(post: State, out: Outcome<T>)

  /** `Authorization.new(client, **args)`: raises if assignment does. */
  function New(args: Args): (r: Outcome<State>)
    ensures r.Returned? <==> args.Keys == Keywords
    ensures r.Returned? ==>
      && Carries(r.value.fields, args)
      && r.value.fields.identifier == Nil
      && r.value.fields.domain == Nil
      && r.value.http01.None?
      && r.value.dns01.None?
  {
    var f :- Assign(Unset, args);
    Returned(State(f, None, None))
  }

  /** The two requests the resource sends through its client, each carrying
      the resource's current url. */
  datatype Request = FetchAuthorization(url: Value) | DeactivateAuthorization(url: Value)

  /** The client as seen from this resource: its answer to a request, already
      turned into a hash by `to_h`, or a raise (network, protocol or signing
      failure). The answer may differ from one call to the next, so every
      call takes the client as it stands at that moment. */
  type Gateway = Request -> Outcome<Args>

  /** The outcome `reload` and `deactivate` promise for a client reply: when
      the reply arrives and binds, `true` is returned, the five assigned
      instance variables (url included) take the reply's values, and
      identifier, domain and both memos keep theirs; otherwise the call
      raises and the object is exactly as before. */
  predicate RefreshedFrom(s: State, reply: Outcome<Args>, e: Effect<bool>)
  {
    if reply.Returned? && reply.value.Keys == Keywords then
      && e.out == Returned(true)
      && Carries(e.post.fields, reply.value)
      && e.post.fields.identifier == s.fields.identifier
      && e.post.fields.domain == s.fields.domain
      && e.post.http01 == s.http01
      && e.post.dns01 == s.dns01
    else
      e == Effect(s, Raised)
  }

  /** `assign_attributes **reply; true`. */
  function Refresh(s: State, reply: Outcome<Args>): (e: Effect<bool>)
    ensures RefreshedFrom(s, reply, e)
  {
    match reply
    case Raised => Effect(s, Raised)
    case Returned(args) =>
      match Assign(s.fields, args)
      case Raised => Effect(s, Raised)
      case Returned(f) => Effect(s.(fields := f), Returned(true))
  }

  /** `reload`: refresh from the client's `authorization(url: url)`. */
  function Reload(s: State, client: Gateway): (e: Effect<bool>)
    ensures RefreshedFrom(s, client(FetchAuthorization(s.fields.url)), e)
  {
    Refresh(s, client(FetchAuthorization(s.fields.url)))
  }

  /** `deactivate`: refresh from the client's `deactivate_authorization(url: url)`.
      Whatever status the server reports is taken as is. */
  function Deactivate(s: State, client: Gateway): (e: Effect<bool>)
    ensures RefreshedFrom(s, client(DeactivateAuthorization(s.fields.url)), e)
  {
    Refresh(s, client(DeactivateAuthorization(s.fields.url)))
  }

  /** `challenges`: the typed projection of the stored descriptors. It reads
      only the descriptors and never the memos. */
  function Challenges(s: State, classify: Classifier): (r: Outcome<seq<Challenge>>)
    ensures r.Returned? <==>
      || s.fields.challenges == Data(Obj(map[]))
      || (&& s.fields.challenges.Data?
          && s.fields.challenges.json.Arr?
          && forall i :: 0 <= i < |s.fields.challenges.json.items| ==>
               Builds(s.fields.challenges.json.items[i], classify))
    ensures r.Returned? && s.fields.challenges.Data? && s.fields.challenges.json.Arr? ==>
      && |r.value| == |s.fields.challenges.json.items|
      && forall i :: 0 <= i < |r.value| ==>
           InitializeChallenge(s.fields.challenges.json.items[i], classify) == Returned(r.value[i])
    ensures r.Returned? && !s.fields.challenges.json.Arr? ==> r.value == []
  {
    ChallengeList(s.fields.challenges, classify)
  }

  /** The two memoising finders (`http`, `dns` are aliases of them). */
  datatype Finder = FindHttp01 | FindDns01 {
    /** The challenge class the finder looks for. */
    function Target(): Kind
    {
      match this
      case FindHttp01 => Http01
      case FindDns01 => Dns01
    }
  }

  /** The finder's memo instance variable. */
  function Memo(s: State, which: Finder): Option<Challenge>
  {
    match which
    case FindHttp01 => s.http01
    case FindDns01 => s.dns01
  }

  /** `@memo ||= challenges.find { ... }`: a non-nil memo is returned without
      looking at the descriptors; a nil memo triggers the search, whose
      result (nil included) is stored; a raise in `challenges` leaves the
      memo as it was. Only that finder's memo can change. */
  function Find(s: State, which: Finder, classify: Classifier): (e: Effect<Option<Challenge>>)
    ensures e.post.fields == s.fields
    ensures Memo(e.post, which) == (if e.out.Returned? then e.out.value else Memo(s, which))
    ensures which == FindHttp01 ==> e.post.dns01 == s.dns01
    ensures which == FindDns01 ==> e.post.http01 == s.http01
    ensures Memo(s, which).Some? ==> e.out == Returned(Memo(s, which))
    ensures Memo(s, which).None? ==>
      (e.out.Returned? <==> Challenges(s, classify).Returned?)
    ensures Memo(s, which).None? && e.out.Returned? ==>
      (e.out.value.None? <==>
        forall i :: 0 <= i < |Challenges(s, classify).value| ==>
          Challenges(s, classify).value[i].kind != which.Target())
    ensures Memo(s, which).None? && e.out.Returned? && e.out.value.Some? ==>
      exists i :: IsFirstOfKind(Challenges(s, classify).value, which.Target(), i)
        && Challenges(s, classify).value[i] == e.out.value.value
  {
    match Memo(s, which)
    case Some(c) => Effect(s, Returned(Some(c)))
    case None =>
      match Challenges(s, classify)
      case Raised => Effect(s, Raised)
      case Returned(cs) =>
        var found := First(cs, which.Target());
        var post := match which
          case FindHttp01 => s.(http01 := found)
          case FindDns01 => s.(dns01 := found);
        Effect(post, Returned(found))
  }
}
