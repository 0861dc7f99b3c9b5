# ACME authorization resource, modelled in Dafny

This project models the authorization resource of the `acme-client` Ruby gem
(`Acme::Client::Resources::Authorization`). It is the client-side view of an
ACME Authorization Object (section 7.1.4 of RFC 8555). The model covers:

- turning a server response body into constructor arguments (`arguments_from_response`);
- storing those arguments in instance variables (`initialize`, `assign_attributes`);
- refreshing the same object through the client (`reload`, and `deactivate`,
  which is section 7.5.2 of RFC 8555);
- projecting the raw challenge descriptors into typed challenges (`challenges`,
  `initialize_challenge`);
- the memoising finders `http01`/`http` and `dns01`/`dns`;
- the snapshot `to_h`.

Files:

- `ruby_values.dfy` (module `RubyValues`): parsed JSON, Ruby values, and
  `Outcome` (returned or raised). It also holds `Hash#fetch`, `Hash#fetch` with
  a default, and `Hash#[]`.
- `challenge_dispatch.dfy` (module `ChallengeDispatch`): descriptor to
  challenge, the order-preserving projection, and the first-of-kind search.
- `authorization_model.dfy` (module `AuthorizationModel`): everything above as
  pure functions over a `State`. The state is the seven instance variables plus
  the two finder memos. Each mutating call returns an `Effect`: the state after
  the call, and what the call returned or that it raised.
- `authorization_properties.dfy` (module `AuthorizationProperties`): lemmas
  that relate several calls.
- `authorization_resource.dfy` (module `AuthorizationResource`): a class with
  mutable fields. `Reload`, `Deactivate`, `Http01` and `Dns01` update one object
  in place, as the functions above describe. Its `Valid` predicate (identifier
  and domain nil) is established by `Create` and kept by every method.

Collaborators are parameters:

- The client is a `Gateway`: a function from a request (fetch or deactivate,
  carrying the current url) to the hash its returned object's `to_h` gives, or
  a raise.
- `Time.parse` is a `TimeParser`: a function from JSON to an instant, or a raise.
- The challenge factory is a `Classifier`: a function from the challenge
  arguments to the class it builds (HTTP01, DNS01 or another), or a raise.

All Ruby exceptions the core can raise become one failure, `Raised`. These are
`KeyError`, `ArgumentError`, `TypeError` and `NoMethodError`, and the core
rescues none of them.

Where the code departs from what a reader might expect, the model follows the code:

- The url is not fixed after construction: `reload` and `deactivate` overwrite
  `url` with the value in the client's hash.
- `to_h` does not give back identifier and domain: `assign_attributes` takes
  `identifier:` and `domain:` but never stores them, so those readers and the
  same keys of `to_h` stay nil.
- A nil finder result is not cached, because `||=` evaluates again on nil. A
  non-nil result is cached for the object's lifetime, and `reload` never clears it.
- No status is rejected: `status` is passed through as whatever JSON value the
  server sent.

## Model

| member | source | states |
|---|---|---|
| ChallengeDispatch.InitializeChallenge | lib/acme/client/resources/authorization.rb:75-84 | A descriptor becomes a challenge exactly when it is a hash holding `type`, `status`, `url` and `token` and the factory accepts the resulting arguments. The challenge carries those four values. Its `error` is the descriptor's `error`, or nil when absent. Its class is the one the factory returned for those arguments. |
| ChallengeDispatch.MapChallenges | lib/acme/client/resources/authorization.rb:41-44 | The projection of an array raises exactly when some descriptor is malformed or refused by the factory. Otherwise it has one challenge per descriptor, in the same order, and element i is built from descriptor i. |
| ChallengeDispatch.ChallengeList | lib/acme/client/resources/authorization.rb:41-44 | `@challenges.map`: an array is mapped element-wise and an empty hash gives no challenges. A non-empty hash, nil, a scalar or an instant raises. |
| ChallengeDispatch.First | lib/acme/client/resources/authorization.rb:48-50 | `find` with `is_a?`: nil exactly when no challenge has the kind. Otherwise the result is the challenge at the first position holding that kind. |
| AuthorizationModel.ArgumentsFromResponse | lib/acme/client/resources/authorization.rb:6-24 | Parsing succeeds exactly when the body is a hash with `identifier`, `identifier.value`, `status`, `expires` and `challenges`, and `expires` parses. The result has exactly the keys identifier, domain, status, expires, challenges and wildcard, and no url. `domain` is `identifier.value` and `status` is passed through. `wildcard` is false when absent and the given value otherwise. |
| AuthorizationModel.ToH | lib/acme/client/resources/authorization.rb:61-71 | The snapshot has exactly the seven keyword keys. url, status, expires, challenges and wildcard are the current values, with the raw descriptors rather than typed challenges. identifier and domain are the stored values, which are nil for every object built by `New`. The memos are not part of it. |
| AuthorizationModel.Assign | lib/acme/client/resources/authorization.rb:86-92 | Binding succeeds exactly when the hash has the seven keywords and no others. On success url, status, expires, challenges and wildcard take the arguments. identifier and domain keep their earlier values. |
| AuthorizationModel.New | lib/acme/client/resources/authorization.rb:26-29 | Construction succeeds exactly when assignment binds. The new object carries the five assigned values, reads nil for identifier and domain, and has both memos empty. |
| AuthorizationModel.Refresh | lib/acme/client/resources/authorization.rb:32-33 | The shared body of reload and deactivate, for any client reply. If the reply arrives and binds, the call returns true, every assigned field comes from the reply (url included), and identifier, domain and both memos are kept. Otherwise it raises and the state is unchanged. |
| AuthorizationModel.Challenges | lib/acme/client/resources/authorization.rb:41-44 | The object's projection succeeds exactly when the stored descriptors are the empty hash, or an array whose every descriptor builds. For an array it has one challenge per descriptor, in order, each built from its descriptor; for the empty hash it is empty. |
| AuthorizationModel.Reload | lib/acme/client/resources/authorization.rb:36-39 | The request is `authorization` with the current url. If the reply arrives and binds, the call returns true and every assigned field comes from the reply, url included. identifier, domain and both memos are kept. Otherwise the call raises and the state is unchanged. |
| AuthorizationModel.Deactivate | lib/acme/client/resources/authorization.rb:31-34 | The same as reload, with the `deactivate_authorization` request. The server's status is taken as is. |
| AuthorizationModel.Find | lib/acme/client/resources/authorization.rb:47-59 | A non-nil memo is returned with nothing else looked at. With an empty memo, the finder raises exactly when the projection does. Otherwise it returns the first challenge of its kind, or nil when none exists, and stores that in its own memo (nil included). The other memo and the fields do not change. |
| AuthorizationProperties.ParseNeedsEveryRequiredField | lib/acme/client/resources/authorization.rb:9-13 | Each of these alone makes parsing raise: removing `identifier`, `status`, `expires` or `challenges`; removing `identifier.value`; a parser that rejects `expires`. |
| AuthorizationProperties.StatusIsNotChecked | lib/acme/client/resources/authorization.rb:11 | Any JSON value in `status` is accepted and passed through unchanged. |
| AuthorizationProperties.ParsedArgumentsNeedUrl | lib/acme/client/resources/authorization.rb:16-29 | The parsed hash alone cannot construct an object because it lacks `url`. With a url added it constructs one that holds the parsed status, expires, challenges and wildcard, and nil identifier and domain. |
| AuthorizationProperties.SnapshotAfterAssign | lib/acme/client/resources/authorization.rb:61-71 | `to_h` after assignment gives back the assigned hash. The only exception is identifier and domain, which show what the object held before. |
| AuthorizationProperties.SnapshotOfNewObject | lib/acme/client/resources/authorization.rb:61-71 | A new object's `to_h` equals its arguments, except that identifier and domain read nil. |
| AuthorizationProperties.AssignFromSnapshot | lib/acme/client/resources/authorization.rb:86-92 | Assigning another object's `to_h` (what reload receives) always binds. It copies that object's five stored fields and keeps the receiver's identifier and domain. |
| AuthorizationProperties.AssignOverwrites | lib/acme/client/resources/authorization.rb:86-92 | After assignment, every field except identifier and domain is independent of the earlier fields. Assigning the same hash twice equals assigning it once. |
| AuthorizationProperties.RefreshReplacesUrl | lib/acme/client/resources/authorization.rb:87 | After a successful reload or deactivate, the url is the one the client's hash named. |
| AuthorizationProperties.ChallengesIgnoreMemos | lib/acme/client/resources/authorization.rb:41-44 | The projection is the same whatever the two finder memos hold. |
| AuthorizationProperties.CachedFinderSurvivesRefresh | lib/acme/client/resources/authorization.rb:47-59 | Once a finder has cached a challenge, it returns that challenge after any refresh, successful or failed. |
| AuthorizationProperties.NilFinderResultIsRecomputed | lib/acme/client/resources/authorization.rb:48 | A nil finder result leaves the memo empty. After a refresh, the finder searches the new descriptors. |
| AuthorizationProperties.FindIsIdempotent | lib/acme/client/resources/authorization.rb:47-51 | A second finder call returns the same result and leaves the same state as the first. |
| AuthorizationProperties.FindersAreIndependent | lib/acme/client/resources/authorization.rb:47-59 | Calling one finder first does not change what the other one returns. |
| AuthorizationProperties.CachedChallengeGoesStale | lib/acme/client/resources/authorization.rb:48-50 | Concrete case: after a reload turns an http-01 challenge from pending to valid, `http01` still returns the cached pending challenge, while `challenges` shows the valid one. |

## Left out

- The client and its transport, JWS signing and nonces are not part of this model. The client's answer is a parameter (`Gateway`), and its failures are one `Raised`.
- `Time.parse` internals: it is a parameter that returns an instant or raises. An instant is an integer stamp.
- The challenge factory `Acme::Client::Resources::Challenges.new` and the HTTP01/DNS01 classes are not part of this model. The factory is a parameter that picks a class or raises. Nothing is claimed about which types it accepts, so nothing is claimed about unknown types.
- The `@client` reference that is passed on to each challenge is not modelled.
- Exception classes are not distinguished. The code defines none of its own.
- Ruby 3 keyword separation: line 28 passes the argument hash positionally to a keyword-only method. The model uses Ruby 2 semantics, where that hash binds as keywords. Under Ruby 3 keyword separation, `initialize` would raise for every hash.
- Object identity of the challenges is not modelled. Each `challenges` call builds new objects, and the model compares challenges by value only.
- The class methods in `AuthorizationResource` (`Create`, `Reload`, `Deactivate`, `Http01`, `Dns01`) have contracts that use `old`, `fresh` or `modifies`. Each of them delegates to the pure function with the same meaning, so their rows are the pure functions.
- The aliases `http` and `dns` are the same methods as `http01` and `dns01`, so they have no separate members.
