/**
 * The profile hook: a cached copy of the signed-in user's profile with `loading`
 * and `error` flags, kept in step with the profile endpoint by fetch, create and
 * update, plus the two convenience mutations `addSwiftCoins` and `addAchievement`.
 *
 * The transitions are first given as functions on a `State` value (the cached
 * fields plus the request log), with the properties the hook promises as their
 * postconditions; `ProfileStore` is the stateful hook, whose methods are proved
 * to perform exactly those transitions.
 *
 * React callbacks see the state of the render that created them. The guards and
 * payloads of `updateProfile`, `addSwiftCoins` and `addAchievement` therefore read
 * a snapshot `seen` of the profile, which callers take when their handler starts.
 */
module UserProfile {
  import opened Wrappers
  import opened Api

  const FetchFailed: string := "Failed to fetch profile"
  const CreateFailed: string := "Failed to create profile"
  const UpdateFailed: string := "Failed to update profile"

  /** The body `createProfile` posts for a first visit. */
  const CreateRequest: Request := PostProfile("midnights", 0, [])

  /** The hook's fields and the requests sent so far. */
  datatype State = State(profile: Option<Profile>, loading: bool, error: Option<string>, sent: seq<Request>)

  /** How a call to `updateProfile` ends: guarded out, resolved with the reply, or thrown. */
  datatype UpdateOutcome = Skipped | Updated(profile: Profile) | Threw(message: string)

  /** The message `setError` stores: the rejection's own message, or the one thrown for a bad status. */
  function FailureMessage<T>(reply: Response<T>, thrown: string): string {
    if reply.NetworkFailure? then reply.message else thrown
  }

  /** The effect on `user` when there is no user: clear the cache, stop loading, send nothing. */
  function NoUser(st: State): (r: State)
    ensures r.profile == None && !r.loading
    ensures r.sent == st.sent && r.error == st.error
  {
    st.(profile := None, loading := false)
  }

  /** `createProfile`: post the defaults and cache the reply; failures only set the error. */
  function Create(st: State, signedIn: bool, reply: Response<Profile>): (r: State)
    ensures !signedIn ==> r == st
    ensures signedIn ==> r.sent == st.sent + [PostProfile("midnights", 0, [])]
    ensures signedIn && reply.Ok() ==> r.profile == Some(reply.body) && r.error == st.error
    ensures signedIn && !reply.Ok() ==> r.profile == st.profile && r.error == Some(FailureMessage(reply, CreateFailed))
    ensures r.loading == st.loading
  {
    if !signedIn then st
    else
      var st1 := st.(sent := st.sent + [CreateRequest]);
      if reply.Ok() then st1.(profile := Some(reply.body))
      else st1.(error := Some(FailureMessage(reply, CreateFailed)))
  }

  /**
   * `fetchProfile`: an ok reply is cached, a 404 creates the profile (one POST),
   * any other status or a rejection sets the error; `loading` ends false.
   */
  function Fetch(st: State, signedIn: bool, get: Response<Profile>, post: Response<Profile>): (r: State)
    ensures !signedIn ==> r == st
    ensures signedIn ==> !r.loading
    ensures signedIn && get.Ok() ==> r == st.(profile := Some(get.body), loading := false, sent := st.sent + [GetProfile])
    ensures signedIn && get.Response? && get.status == 404 ==>
              r == Create(st, true, post).(sent := st.sent + [GetProfile, CreateRequest], loading := false)
    ensures signedIn && !get.Ok() && !(get.Response? && get.status == 404) ==>
              r == st.(error := Some(FailureMessage(get, FetchFailed)), loading := false, sent := st.sent + [GetProfile])
  {
    if !signedIn then st
    else
      var st1 := st.(loading := true, sent := st.sent + [GetProfile]);
      var st2 :=
        if get.Ok() then st1.(profile := Some(get.body))
        else if get.Response? && get.status == 404 then Create(st1, true, post)
        else st1.(error := Some(FailureMessage(get, FetchFailed)));
      st2.(loading := false)
  }

  /** The effect that runs whenever the signed-in user changes. */
  function UserEffect(st: State, signedIn: bool, get: Response<Profile>, post: Response<Profile>): (r: State)
    ensures !r.loading
    ensures !signedIn ==> r.sent == st.sent && r.profile == None
  {
    if !signedIn then NoUser(st) else Fetch(st, signedIn, get, post)
  }

  /**
   * `updateProfile`: without a user or a cached profile (as the caller saw it)
   * nothing is sent and nothing changes; otherwise one PUT with the partial
   * fields. Success replaces the cache by the reply (no local merge); failure
   * records the error, keeps the cache and rethrows.
   */
  function Update(st: State, signedIn: bool, seen: Option<Profile>, updates: Updates, reply: Response<Profile>)
    : (r: (State, UpdateOutcome))
    ensures !signedIn || seen.None? ==> r == (st, Skipped)
    ensures signedIn && seen.Some? ==> r.0.sent == st.sent + [PutProfile(updates)] && r.0.loading == st.loading
    ensures signedIn && seen.Some? && reply.Ok() ==>
              r.0.profile == Some(reply.body) && r.0.error == st.error && r.1 == Updated(reply.body)
    ensures signedIn && seen.Some? && !reply.Ok() ==>
              r.0.profile == st.profile && r.0.error == Some(FailureMessage(reply, UpdateFailed)) &&
              r.1 == Threw(FailureMessage(reply, UpdateFailed))
  {
    if !signedIn || seen.None? then (st, Skipped)
    else
      var st1 := st.(sent := st.sent + [PutProfile(updates)]);
      if reply.Ok() then (st1.(profile := Some(reply.body)), Updated(reply.body))
      else
        var msg := FailureMessage(reply, UpdateFailed);
        (st1.(error := Some(msg)), Threw(msg))
  }

  /** The body `addSwiftCoins(amount)` sends: the seen balance plus `amount`, sign unchecked. */
  function CoinsUpdate(seen: Profile, amount: int): (u: Updates)
    ensures u.swiftCoins.Some? && u.swiftCoins.value - seen.swiftCoins == amount
    ensures u.favoriteEra.None? && u.achievementBadges.None?
  {
    Updates(None, Some(seen.swiftCoins + amount), None)
  }

  /** `addSwiftCoins`: nothing without a profile, else one update with `CoinsUpdate`. */
  function AddCoins(st: State, signedIn: bool, seen: Option<Profile>, amount: int, reply: Response<Profile>)
    : (r: (State, UpdateOutcome))
    ensures seen.None? ==> r == (st, Skipped)
    ensures seen.Some? ==> r == Update(st, signedIn, seen, CoinsUpdate(seen.value, amount), reply)
  {
    if seen.None? then (st, Skipped)
    else Update(st, signedIn, seen, CoinsUpdate(seen.value, amount), reply)
  }

  /**
   * The body `addAchievement(badge)` sends: none when the badge is already held,
   * otherwise the held badges followed by `badge`.
   */
  function BadgeUpdate(seen: Profile, badge: string): (u: Option<Updates>)
    ensures u.None? <==> badge in seen.achievementBadges
    ensures u.Some? ==> u.value.achievementBadges.Some? && u.value.favoriteEra.None? && u.value.swiftCoins.None?
    ensures u.Some? ==> |u.value.achievementBadges.value| == |seen.achievementBadges| + 1
    ensures u.Some? ==> u.value.achievementBadges.value[..|seen.achievementBadges|] == seen.achievementBadges
    ensures u.Some? ==> u.value.achievementBadges.value[|seen.achievementBadges|] == badge
  {
    if badge in seen.achievementBadges then None
    else Some(Updates(None, None, Some(seen.achievementBadges + [badge])))
  }

  /** A list holds each element at most once. */
  predicate NoDuplicates(s: seq<string>) {
    forall i, j :: 0 <= i < j < |s| ==> s[i] != s[j]
  }

  /** A duplicate-free badge list stays duplicate-free and gains exactly `badge`. */
  lemma BadgeUpdateKeepsBadgesUnique(seen: Profile, badge: string)
    requires NoDuplicates(seen.achievementBadges)
    ensures var u := BadgeUpdate(seen, badge);
            u.Some? ==> NoDuplicates(u.value.achievementBadges.value) &&
                        multiset(u.value.achievementBadges.value) == multiset(seen.achievementBadges) + multiset{badge}
  {
    var u := BadgeUpdate(seen, badge);
    if u.Some? {
      var s, t := seen.achievementBadges, u.value.achievementBadges.value;
      assert t == s + [badge];
      forall i, j | 0 <= i < j < |t| ensures t[i] != t[j] {
        if j == |s| {
          assert t[i] == s[i];
          assert s[i] in s;
        }
      }
    }
  }

  /** `addAchievement`: nothing without a profile or when the badge is held, else one update. */
  function AddBadge(st: State, signedIn: bool, seen: Option<Profile>, badge: string, reply: Response<Profile>)
    : (r: (State, UpdateOutcome))
    ensures seen.None? || badge in seen.value.achievementBadges ==> r == (st, Skipped)
    ensures seen.Some? && badge !in seen.value.achievementBadges ==>
              r == Update(st, signedIn, seen, Updates(None, None, Some(seen.value.achievementBadges + [badge])), reply)
  {
    if seen.None? then (st, Skipped)
    else match BadgeUpdate(seen.value, badge)
      case None => (st, Skipped)
      case Some(u) => Update(st, signedIn, seen, u, reply)
  }

  /** The hook instance a component owns. */
  class ProfileStore {
    var signedIn: bool
    var profile: Option<Profile>
    var loading: bool
    var error: Option<string>
    const net: Network

    /** The hook's fields together with the requests sent so far. */
    function Current(): State
      reads this, net
    {
      State(profile, loading, error, net.sent)
    }

    /** `useState` initial values: no profile, loading, no error. */
    constructor (net: Network, signedIn: bool)
      ensures this.net == net && this.signedIn == signedIn
      ensures profile == None && loading && error == None
    {
      this.net := net;
      this.signedIn := signedIn;
      profile := None;
      loading := true;
      error := None;
    }

    /** The effect on `user`: runs on mount and whenever the user changes. */
    method UserChanged(nowSignedIn: bool, get: Response<Profile>, post: Response<Profile>)
      modifies this, net
      ensures signedIn == nowSignedIn
      ensures Current() == UserEffect(old(Current()), nowSignedIn, get, post)
    {
      signedIn := nowSignedIn;
      if !signedIn {
        profile := None;
        loading := false;
        return;
      }
      FetchProfile(get, post);
    }

    method FetchProfile(get: Response<Profile>, post: Response<Profile>)
      modifies this, net
      ensures signedIn == old(signedIn)
      ensures Current() == Fetch(old(Current()), signedIn, get, post)
    {
      if !signedIn {
        return;
      }
      loading := true;
      net.Send(GetProfile);
      if get.Ok() {
        profile := Some(get.body);
      } else if get.Response? && get.status == 404 {
        CreateProfile(post);
      } else {
        error := Some(FailureMessage(get, FetchFailed));
      }
      loading := false;
    }

    method CreateProfile(reply: Response<Profile>)
      modifies this, net
      ensures signedIn == old(signedIn)
      ensures Current() == Create(old(Current()), signedIn, reply)
    {
      if !signedIn {
        return;
      }
      net.Send(CreateRequest);
      if reply.Ok() {
        profile := Some(reply.body);
      } else {
        error := Some(FailureMessage(reply, CreateFailed));
      }
    }

    method UpdateProfile(seen: Option<Profile>, updates: Updates, reply: Response<Profile>)
      returns (outcome: UpdateOutcome)
      modifies this, net
      ensures signedIn == old(signedIn)
      ensures (Current(), outcome) == Update(old(Current()), signedIn, seen, updates, reply)
    {
      if !signedIn || seen.None? {
        return Skipped;
      }
      net.Send(PutProfile(updates));
      if reply.Ok() {
        profile := Some(reply.body);
        outcome := Updated(reply.body);
      } else {
        var msg := FailureMessage(reply, UpdateFailed);
        error := Some(msg);
        outcome := Threw(msg);
      }
    }

    method AddSwiftCoins(seen: Option<Profile>, amount: int, reply: Response<Profile>)
      returns (outcome: UpdateOutcome)
      modifies this, net
      ensures signedIn == old(signedIn)
      ensures (Current(), outcome) == AddCoins(old(Current()), signedIn, seen, amount, reply)
    {
      if seen.None? {
        return Skipped;
      }
      outcome := UpdateProfile(seen, Updates(None, Some(seen.value.swiftCoins + amount), None), reply);
    }

    method AddAchievement(seen: Option<Profile>, badge: string, reply: Response<Profile>)
      returns (outcome: UpdateOutcome)
      modifies this, net
      ensures signedIn == old(signedIn)
      ensures (Current(), outcome) == AddBadge(old(Current()), signedIn, seen, badge, reply)
    {
      if seen.None? {
        return Skipped;
      }
      var current := seen.value.achievementBadges;
      if badge !in current {
        outcome := UpdateProfile(seen, Updates(None, None, Some(current + [badge])), reply);
      } else {
        outcome := Skipped;
      }
    }
  }
}
