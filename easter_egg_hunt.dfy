/**
 * The easter-egg hunt: four hidden eggs, each rewarding coins and a badge the
 * first time it is found. The hunt shows the unfound eggs at one of four
 * positions and lists their hints.
 */
module EasterEggHunt {
  import opened Wrappers
  import opened Api
  import opened UserProfile

  datatype Reward = Reward(coins: int, badge: Option<string>, description: string)

  datatype Egg = Egg(id: string, kind: string, content: string, hint: string, reward: Reward, found: bool)

  /** The shipped eggs (hint texts shortened). */
  const EasterEggs: seq<Egg> := [
    Egg("13", "number", "13", "Taylor's lucky number...",
        Reward(13, Some("lucky_13"), "Found the lucky number 13!"), false),
    Egg("snake", "symbol", "snake", "A certain reptile...",
        Reward(20, Some("snake_finder"), "Spotted the reputation snake!"), false),
    Egg("purple", "color", "lavender", "A dreamy purple hue...",
        Reward(15, Some("lavender_haze"), "Found the lavender haze!"), false),
    Egg("red_scarf", "word", "scarf", "A red accessory...",
        Reward(25, Some("all_too_well"), "Found the legendary red scarf!"), false)
  ]

  /** `eggs.find(e => e.id === eggId)`. */
  function FindEgg(eggs: seq<Egg>, eggId: string): (r: Option<Egg>)
    ensures r.None? <==> forall e :: e in eggs ==> e.id != eggId
    ensures r.Some? ==> exists i :: 0 <= i < |eggs| && eggs[i] == r.value && r.value.id == eggId &&
                                    forall j :: 0 <= j < i ==> eggs[j].id != eggId
  {
    if eggs == [] then None
    else if eggs[0].id == eggId then Some(eggs[0])
    else
      var r := FindEgg(eggs[1..], eggId);
      assert r.Some? ==> exists i :: 0 <= i < |eggs| - 1 && eggs[1..][i] == r.value && r.value.id == eggId &&
                                     forall j :: 0 <= j < i ==> eggs[1..][j].id != eggId;
      r
  }

  /** Marks every egg with that id found. */
  function MarkFound(eggs: seq<Egg>, eggId: string): (r: seq<Egg>)
    ensures |r| == |eggs|
    ensures forall i :: 0 <= i < |r| && eggs[i].id == eggId ==> r[i] == eggs[i].(found := true)
    ensures forall i :: 0 <= i < |r| && eggs[i].id != eggId ==> r[i] == eggs[i]
  {
    if eggs == [] then []
    else [if eggs[0].id == eggId then eggs[0].(found := true) else eggs[0]] + MarkFound(eggs[1..], eggId)
  }

  /**
   * The guard and list update of `handleEggFound`: an unknown or already found
   * egg changes nothing and earns nothing; otherwise the egg is marked found and
   * is the one to reward.
   */
  function FindOnce(eggs: seq<Egg>, eggId: string): (r: (seq<Egg>, Option<Egg>))
    ensures FindEgg(eggs, eggId).None? || FindEgg(eggs, eggId).value.found ==> r == (eggs, None)
    ensures FindEgg(eggs, eggId).Some? && !FindEgg(eggs, eggId).value.found ==>
              r == (MarkFound(eggs, eggId), FindEgg(eggs, eggId))
  {
    var egg := FindEgg(eggs, eggId);
    if egg.None? || egg.value.found then (eggs, None) else (MarkFound(eggs, eggId), egg)
  }

  /** Each egg rewards at most once: finding it again changes nothing and earns nothing. */
  lemma FindTwiceRewardsOnce(eggs: seq<Egg>, eggId: string)
    ensures var after := FindOnce(eggs, eggId).0;
            FindOnce(after, eggId) == (after, None)
  {
    var first := FindEgg(eggs, eggId);
    if first.Some? && !first.value.found {
      var after := MarkFound(eggs, eggId);
      var again := FindEgg(after, eggId);
      if again.Some? {
        var i :| 0 <= i < |after| && after[i] == again.value && again.value.id == eggId;
        assert eggs[i].id == eggId;
        assert again.value.found;
      }
    }
  }

  /** `eggs.filter(egg => !egg.found)`: the eggs still hidden, whose hints are listed. */
  function Unfound(eggs: seq<Egg>): (r: seq<Egg>)
    ensures forall e :: e in r <==> e in eggs && !e.found
  {
    if eggs == [] then []
    else if eggs[0].found then Unfound(eggs[1..])
    else [eggs[0]] + Unfound(eggs[1..])
  }

  /** A found egg is neither drawn nor hinted at any more. */
  lemma FoundEggLeavesHunt(eggs: seq<Egg>, eggId: string)
    ensures forall e :: e in Unfound(MarkFound(eggs, eggId)) ==> e.id != eggId
    ensures forall e :: e in Unfound(eggs) && e.id != eggId ==> e in Unfound(MarkFound(eggs, eggId))
  {
    var marked := MarkFound(eggs, eggId);
    forall e | e in Unfound(eggs) && e.id != eggId
      ensures e in marked
    {
      var i :| 0 <= i < |eggs| && eggs[i] == e;
      assert marked[i] == e;
    }
  }

  /** The number of entries in the `positions` list. */
  const PositionCount: nat := 4

  /** The position an egg is drawn at: its index in the list, modulo the four positions. */
  function PositionIndex(index: nat): (r: nat)
    ensures r < PositionCount
    ensures index < PositionCount ==> r == index
  {
    index % PositionCount
  }

  /** Positions repeat every four eggs: the fifth egg shares the first one's position. */
  lemma PositionIndexPeriodic(index: nat)
    ensures PositionIndex(index + PositionCount) == PositionIndex(index)
  {
  }

  /** The unfound eggs of `eggs`, each with the position of its index counted from `start`. */
  function DrawnFrom(eggs: seq<Egg>, start: nat): (r: seq<(Egg, nat)>)
    ensures forall k :: 0 <= k < |r| ==> !r[k].0.found && r[k].1 < PositionCount
  {
    if eggs == [] then []
    else
      var rest := DrawnFrom(eggs[1..], start + 1);
      var r := (if eggs[0].found then [] else [(eggs[0], PositionIndex(start))]) + rest;
      assert forall e, p :: (e, p) in rest ==> (e, p) in r;
      r
  }

  /** The list index of the `k`-th drawn egg, whose position is that index's. */
  lemma {:induction false} DrawnIndex(eggs: seq<Egg>, start: nat, k: nat) returns (i: nat)
    requires k < |DrawnFrom(eggs, start)|
    ensures i < |eggs| && DrawnFrom(eggs, start)[k] == (eggs[i], PositionIndex(start + i))
  {
    var rest := DrawnFrom(eggs[1..], start + 1);
    var head := if eggs[0].found then [] else [(eggs[0], PositionIndex(start))];
    assert DrawnFrom(eggs, start) == head + rest;
    if k < |head| {
      i := 0;
    } else {
      var j := DrawnIndex(eggs[1..], start + 1, k - |head|);
      assert eggs[1..][j] == eggs[j + 1];
      i := j + 1;
    }
  }

  /** Each drawn egg sits at the position of its own index. */
  lemma DrawnAtOwnIndex(eggs: seq<Egg>, start: nat)
    ensures var r := DrawnFrom(eggs, start);
            forall k :: 0 <= k < |r| ==> exists i :: 0 <= i < |eggs| && r[k] == (eggs[i], PositionIndex(start + i))
  {
    var r := DrawnFrom(eggs, start);
    forall k | 0 <= k < |r|
      ensures exists i :: 0 <= i < |eggs| && r[k] == (eggs[i], PositionIndex(start + i))
    {
      var i := DrawnIndex(eggs, start, k);
    }
  }

  /** Every unfound egg is drawn at the position of its own index. */
  lemma {:induction false} UnfoundDrawnAtOwnIndex(eggs: seq<Egg>, start: nat)
    ensures var r := DrawnFrom(eggs, start);
            forall i :: 0 <= i < |eggs| && !eggs[i].found ==> (eggs[i], PositionIndex(start + i)) in r
  {
    if eggs != [] {
      var rest := DrawnFrom(eggs[1..], start + 1);
      UnfoundDrawnAtOwnIndex(eggs[1..], start + 1);
      var head := if eggs[0].found then [] else [(eggs[0], PositionIndex(start))];
      var r := DrawnFrom(eggs, start);
      assert r == head + rest;
      forall i | 0 <= i < |eggs| && !eggs[i].found
        ensures (eggs[i], PositionIndex(start + i)) in r
      {
        if i == 0 {
          assert r[0] == (eggs[0], PositionIndex(start));
        } else {
          assert eggs[1..][i - 1] == eggs[i];
          assert (eggs[i], PositionIndex(start + 1 + (i - 1))) in rest;
        }
      }
    }
  }

  /** The drawn eggs are exactly the unfound ones. */
  lemma DrawnFromUnfound(eggs: seq<Egg>, start: nat)
    ensures forall e :: e in eggs && !e.found <==> exists p :: (e, p) in DrawnFrom(eggs, start)
  {
    var r := DrawnFrom(eggs, start);
    DrawnAtOwnIndex(eggs, start);
    UnfoundDrawnAtOwnIndex(eggs, start);
    forall e | e in eggs && !e.found
      ensures exists p :: (e, p) in r
    {
      var i :| 0 <= i < |eggs| && eggs[i] == e;
      assert (e, PositionIndex(start + i)) in r;
    }
    forall e, p | (e, p) in r
      ensures e in eggs && !e.found
    {
      var k :| 0 <= k < |r| && r[k] == (e, p);
      var i :| 0 <= i < |eggs| && r[k] == (eggs[i], PositionIndex(start + i));
    }
  }

  /**
   * `renderHiddenEggs`: nothing while the hunt is inactive, else every unfound egg
   * at `positions[index % 4]`, where `index` is its place in the list.
   */
  function HiddenEggs(eggs: seq<Egg>, huntActive: bool): (r: seq<(Egg, nat)>)
    ensures !huntActive ==> r == []
    ensures huntActive ==> forall e :: e in eggs && !e.found <==> exists p :: (e, p) in r
    ensures forall k :: 0 <= k < |r| ==> !r[k].0.found && r[k].1 < PositionCount
    ensures forall k :: 0 <= k < |r| ==> exists i :: 0 <= i < |eggs| && r[k] == (eggs[i], PositionIndex(i))
    ensures huntActive ==> forall i :: 0 <= i < |eggs| && !eggs[i].found ==> (eggs[i], PositionIndex(i)) in r
  {
    if huntActive then DrawnAtOwnIndex(eggs, 0); UnfoundDrawnAtOwnIndex(eggs, 0); DrawnFromUnfound(eggs, 0); DrawnFrom(eggs, 0)
    else []
  }

  /**
   * The rewards of `handleEggFound` for `egg`: its coins, then its badge when it
   * has one, unless adding the coins threw.
   */
  function RewardEgg(st: State, signedIn: bool, seen: Option<Profile>, egg: Egg,
                     coinsReply: Response<Profile>, badgeReply: Response<Profile>): State
  {
    var (st1, outcome) := AddCoins(st, signedIn, seen, egg.reward.coins, coinsReply);
    if outcome.Threw? || egg.reward.badge.None? || egg.reward.badge.value == "" then st1
    else AddBadge(st1, signedIn, seen, egg.reward.badge.value, badgeReply).0
  }

  /**
   * With a profile, the coin update goes first; a badge update follows exactly when
   * the coins went through and the egg has a non-empty badge the profile lacks.
   */
  lemma RewardRequests(st: State, p: Profile, egg: Egg, coinsReply: Response<Profile>, badgeReply: Response<Profile>)
    ensures var r := RewardEgg(st, true, Some(p), egg, coinsReply, badgeReply);
            && |r.sent| >= |st.sent| + 1
            && r.sent[..|st.sent| + 1] == st.sent + [PutProfile(CoinsUpdate(p, egg.reward.coins))]
            && ((egg.reward.badge.None? || !coinsReply.Ok() || egg.reward.badge.value == ""
                   || egg.reward.badge.value in p.achievementBadges) ==> |r.sent| == |st.sent| + 1)
            && (coinsReply.Ok() && egg.reward.badge.Some? && egg.reward.badge.value != ""
                  && egg.reward.badge.value !in p.achievementBadges ==>
                  r.sent == st.sent + [PutProfile(CoinsUpdate(p, egg.reward.coins)),
                                       PutProfile(Updates(None, None, Some(p.achievementBadges + [egg.reward.badge.value])))])
  {
    var (st1, outcome) := AddCoins(st, true, Some(p), egg.reward.coins, coinsReply);
    assert st1.sent == st.sent + [PutProfile(CoinsUpdate(p, egg.reward.coins))];
    if !(outcome.Threw? || egg.reward.badge.None? || egg.reward.badge.value == "") {
      var r := AddBadge(st1, true, Some(p), egg.reward.badge.value, badgeReply).0;
      assert r.sent[..|st.sent| + 1] == st1.sent[..|st.sent| + 1];
    }
  }

  /** The hunt's state, on top of its own instance of the profile hook. */
  class EggHunt {
    var eggs: seq<Egg>
    var foundEgg: Option<Egg>
    var huntActive: bool
    var showHints: bool
    const store: ProfileStore

    constructor (store: ProfileStore)
      ensures this.store == store
      ensures eggs == EasterEggs && foundEgg == None && !huntActive && !showHints
    {
      this.store := store;
      eggs := EasterEggs;
      foundEgg := None;
      huntActive := false;
      showHints := false;
    }

    /** The mount effect; `roll` stands for `Math.random()`. The hint reveal that follows is timed. */
    method Activate(roll: real)
      modifies this
      ensures huntActive == (old(huntActive) || roll < 0.3)
      ensures eggs == old(eggs) && foundEgg == old(foundEgg) && showHints == old(showHints)
    {
      if roll < 0.3 {
        huntActive := true;
      }
    }

    /**
     * `handleEggFound(eggId)`: the guard, marking the egg found, showing it, and
     * the rewards with the profile the handler saw. A rejected reward is caught;
     * the egg stays found.
     */
    method HandleEggFound(eggId: string, coinsReply: Response<Profile>, badgeReply: Response<Profile>)
      modifies this, store, store.net
      ensures (eggs, if FindOnce(old(eggs), eggId).1.Some? then foundEgg else None) == FindOnce(old(eggs), eggId)
      ensures FindOnce(old(eggs), eggId).1.None? ==>
                foundEgg == old(foundEgg) && store.Current() == old(store.Current())
      ensures FindOnce(old(eggs), eggId).1.Some? ==>
                store.Current() == RewardEgg(old(store.Current()), store.signedIn, old(store.profile),
                                             FindOnce(old(eggs), eggId).1.value, coinsReply, badgeReply)
      ensures huntActive == old(huntActive) && showHints == old(showHints) && store.signedIn == old(store.signedIn)
    {
      var seen := store.profile;
      var egg := FindEgg(eggs, eggId);
      if egg.None? || egg.value.found {
        return;
      }
      eggs := MarkFound(eggs, eggId);
      foundEgg := egg;
      var outcome := store.AddSwiftCoins(seen, egg.value.reward.coins, coinsReply);
      if !outcome.Threw? && egg.value.reward.badge.Some? && egg.value.reward.badge.value != "" {
        var _ := store.AddAchievement(seen, egg.value.reward.badge.value, badgeReply);
      }
    }
  }
}
