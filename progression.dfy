/**
 * The progression ledger of the coaching dashboard as values: the badge table, the XP reward
 * table, the level table, a user's XP record, the ordered badge sweep and the notification
 * records it produces. The class in session.dfy mutates these records; everything it promises
 * about them is proved here.
 */
module Progression {
  import opened Wrappers

  // ---------------------------------------------------------------------------------------
  // Badges (BADGES_DEF)
  // ---------------------------------------------------------------------------------------

  datatype Badge = FirstChat | HydrationHero | IronWill | NutritionPro | Level5 | Level10 | FeedbackGiver | Streak
  {
    /** The key of the badge in BADGES_DEF and in a record's `badges` list. */
    function Id(): string
    {
      match this
      case FirstChat => "first_chat"
      case HydrationHero => "hydration_hero"
      case IronWill => "iron_will"
      case NutritionPro => "nutrition_pro"
      case Level5 => "level_5"
      case Level10 => "level_10"
      case FeedbackGiver => "feedback_giver"
      case Streak => "streak"
    }

    function Icon(): string
    {
      match this
      case FirstChat => "\U{1F4AC}"
      case HydrationHero => "\U{1F4A7}"
      case IronWill => "\U{1F3CB}\U{FE0F}"
      case NutritionPro => "\U{1F957}"
      case Level5 => "\U{2B50}"
      case Level10 => "\U{1F451}"
      case FeedbackGiver => "\U{1F4DD}"
      case Streak => "\U{1F525}"
    }

    function Title(): string
    {
      match this
      case FirstChat => "First Chat"
      case HydrationHero => "Hydration Hero"
      case IronWill => "Iron Will"
      case NutritionPro => "Nutrition Pro"
      case Level5 => "Level 5"
      case Level10 => "Elite"
      case FeedbackGiver => "Voice Matters"
      case Streak => "On Fire"
    }

    function Description(): string
    {
      match this
      case FirstChat => "Sent first message"
      case HydrationHero => "Hit 2L water"
      case IronWill => "5 exercises done"
      case NutritionPro => "5+ meals logged"
      case Level5 => "Reached Level 5"
      case Level10 => "Reached Level 10"
      case FeedbackGiver => "Submitted feedback"
      case Streak => "Earned 200+ XP"
    }
  }

  /**
   * Distinct badges have distinct keys, so a record's list of keys and the list of badges
   * determine each other.
   */
  lemma BadgeIdsDistinct(a: Badge, b: Badge)
    ensures a.Id() == b.Id() <==> a == b
  {
  }

  /** The text of the notification pushed when a badge is earned. */
  function BadgeMessage(b: Badge): string
  {
    b.Icon() + " Badge: **" + b.Title() + "** \U{2014} " + b.Description()
  }

  // ---------------------------------------------------------------------------------------
  // XP rewards (XP_REWARDS) and the level table (LVL_XP)
  // ---------------------------------------------------------------------------------------

  const XpRewards: map<string, nat> :=
    map["chat_msg" := 10, "exercise_done" := 25, "food_logged" := 10,
        "water_500" := 8, "feedback" := 30, "login" := 20]

  /** The points an award is worth: the explicit amount when one is given, else the table's, else 0. */
  function Points(action: string, pts: Option<nat>): nat
  {
    if pts.Some? then pts.value
    else if action in XpRewards then XpRewards[action]
    else 0
  }

  /** The points of each action the handlers award, without an explicit amount. */
  lemma RewardTable()
    ensures Points("chat_msg", None) == 10 && Points("exercise_done", None) == 25
    ensures Points("food_logged", None) == 10 && Points("water_500", None) == 8
    ensures Points("feedback", None) == 30 && Points("login", None) == 20
  {
  }

  const LvlXp: seq<int> := [0, 100, 250, 450, 700, 1000, 1400, 1900, 2500, 3200, 4000]

  ghost predicate Ascending(t: seq<int>)
  {
    forall i, j :: 0 <= i < j < |t| ==> t[i] <= t[j]
  }

  /** How many entries of the table `t` are at most `x`. */
  function CountAtMost(t: seq<int>, x: int): (n: nat)
    ensures n <= |t|
  {
    if t == [] then 0
    else CountAtMost(t[..|t| - 1], x) + (if t[|t| - 1] <= x then 1 else 0)
  }

  /** The level a player with `xp` points holds. */
  function LevelOf(xp: int): nat
  {
    CountAtMost(LvlXp, xp)
  }

  lemma LvlXpAscending()
    ensures Ascending(LvlXp) && |LvlXp| == 11 && LvlXp[0] == 0
  {
  }

  /** In an ascending table, once the last entry is reached every entry is. */
  lemma {:induction false} CountAllWhenLastReached(t: seq<int>, x: int)
    requires Ascending(t) && t != [] && t[|t| - 1] <= x
    ensures CountAtMost(t, x) == |t|
  {
    var p := t[..|t| - 1];
    if p != [] {
      CountAllWhenLastReached(p, x);
    }
  }

  /** In an ascending table the count is a threshold position: entries before it are reached, the one at it is not. */
  lemma {:induction false} CountIsThreshold(t: seq<int>, x: int)
    requires Ascending(t)
    ensures var n := CountAtMost(t, x);
      (n > 0 ==> t[n - 1] <= x) && (n < |t| ==> x < t[n])
  {
    if t != [] {
      var p := t[..|t| - 1];
      if t[|t| - 1] <= x {
        CountAllWhenLastReached(t, x);
      } else {
        CountIsThreshold(p, x);
      }
    }
  }

  /** More points never count fewer thresholds. */
  lemma {:induction false} CountMonotone(t: seq<int>, x: int, y: int)
    requires x <= y
    ensures CountAtMost(t, x) <= CountAtMost(t, y)
  {
    if t != [] {
      CountMonotone(t[..|t| - 1], x, y);
    }
  }

  /** For a non-negative total the level lies between 1 and the size of the table. */
  lemma LevelBounds(xp: int)
    requires xp >= 0
    ensures 1 <= LevelOf(xp) <= |LvlXp|
  {
    LvlXpAscending();
    CountIsThreshold(LvlXp, xp);
  }

  /** The level never drops when the total grows. */
  lemma LevelMonotone(x: int, y: int)
    requires x <= y
    ensures LevelOf(x) <= LevelOf(y)
  {
    CountMonotone(LvlXp, x, y);
  }

  /** The level is the highest position whose threshold the total has reached. */
  lemma LevelIsHighestReached(xp: int)
    requires xp >= 0
    ensures 1 <= LevelOf(xp) <= |LvlXp|
    ensures LvlXp[LevelOf(xp) - 1] <= xp
    ensures LevelOf(xp) < |LvlXp| ==> xp < LvlXp[LevelOf(xp)]
  {
    LevelBounds(xp);
    CountIsThreshold(LvlXp, xp);
  }

  /**
   * The level loop of `award_xp`: every threshold the total has reached overwrites the level
   * with its position plus one; a total below every threshold leaves the level as it was.
   */
  method RecomputeLevel(xp: int, current: int) returns (level: int)
    ensures xp >= 0 ==> level == LevelOf(xp)
    ensures xp < 0 ==> level == current
  {
    LvlXpAscending();
    level := ScanThresholds(LvlXp, xp, current);
    CountIsThreshold(LvlXp, xp);
  }

  /** The loop itself, over any ascending table: the result is the count of reached thresholds, or `current` when there is none. */
  method ScanThresholds(t: seq<int>, xp: int, current: int) returns (level: int)
    requires Ascending(t)
    ensures CountAtMost(t, xp) == 0 ==> level == current
    ensures CountAtMost(t, xp) > 0 ==> level == CountAtMost(t, xp)
  {
    level := current;
    for i := 0 to |t|
      invariant CountAtMost(t[..i], xp) == 0 ==> level == current
      invariant CountAtMost(t[..i], xp) > 0 ==> level == CountAtMost(t[..i], xp)
    {
      assert t[..i + 1][..i] == t[..i];
      if xp >= t[i] {
        level := i + 1;
        CountAllWhenLastReached(t[..i + 1], xp);
      }
    }
    assert t[..|t|] == t;
  }

  // ---------------------------------------------------------------------------------------
  // The per-user record and the badge sweep (_check_badges)
  // ---------------------------------------------------------------------------------------

  datatype XpRecord = XpRecord(xp: int, level: int, badges: seq<Badge>, mealsLogged: int,
                               exercisesDone: int, lastLogin: Option<string>)

  /** The record `get_xp` creates for a user seen for the first time. */
  const FreshRecord := XpRecord(0, 1, [], 0, 0, None)

  /** No badge occurs twice: each entry is absent from the entries before it. */
  ghost predicate NoDup(s: seq<Badge>)
  {
    s == [] || (NoDup(s[..|s| - 1]) && s[|s| - 1] !in s[..|s| - 1])
  }

  /** The list has no repeated badge exactly when any two positions hold different badges. */
  lemma {:induction false} NoDupIffDistinct(s: seq<Badge>)
    ensures NoDup(s) <==> forall i, j :: 0 <= i < j < |s| ==> s[i] != s[j]
  {
    if s != [] {
      var p := s[..|s| - 1];
      NoDupIffDistinct(p);
      assert forall i :: 0 <= i < |p| ==> p[i] == s[i];
      assert s[|s| - 1] in p <==> exists i :: 0 <= i < |p| && s[i] == s[|s| - 1];
    }
  }

  /** Appending a badge only when it is absent keeps the list free of repeats. */
  lemma GrantNoDup(e: seq<Badge>, b: Badge, ok: bool)
    requires NoDup(e)
    ensures NoDup(Grant(e, b, ok))
  {
    if ok && b !in e {
      assert (e + [b])[..|e|] == e;
    }
  }

  /** What every record in the ledger satisfies: the level formula, no repeated badge, no negative counter. */
  ghost predicate RecordOk(r: XpRecord)
  {
    && r.xp >= 0
    && r.level == LevelOf(r.xp)
    && NoDup(r.badges)
    && r.mealsLogged >= 0
    && r.exercisesDone >= 0
  }

  lemma FreshRecordOk()
    ensures RecordOk(FreshRecord)
  {
    LevelIsHighestReached(0);
  }

  /** Every record of the ledger is valid. */
  ghost predicate LedgerOk(ledger: map<string, XpRecord>)
  {
    forall u :: u in ledger ==> RecordOk(ledger[u])
  }

  /** Storing a valid record keeps the ledger valid. */
  lemma LedgerOkUpdate(ledger: map<string, XpRecord>, user: string, r: XpRecord)
    requires LedgerOk(ledger) && RecordOk(r)
    ensures LedgerOk(ledger[user := r])
  {
    var updated := ledger[user := r];
    forall u | u in updated
      ensures RecordOk(updated[u])
    {
      if u != user {
        assert updated[u] == ledger[u];
      }
    }
  }

  /** The counters the badge predicates look at: the record's own plus the chat length and water total kept elsewhere. */
  datatype Stats = Stats(xp: int, level: int, meals: int, exercises: int, chatLen: nat, water: int)

  function StatsOf(r: XpRecord, chatLen: nat, water: int): Stats
  {
    Stats(r.xp, r.level, r.mealsLogged, r.exercisesDone, chatLen, water)
  }

  /** The predicate guarding each badge of the sweep; the feedback badge is never granted by it. */
  predicate Qualifies(b: Badge, s: Stats)
  {
    match b
    case FirstChat => s.chatLen >= 1
    case IronWill => s.exercises >= 5
    case NutritionPro => s.meals >= 5
    case Level5 => s.level >= 5
    case Level10 => s.level >= 10
    case Streak => s.xp >= 200
    case HydrationHero => s.water >= 2000
    case FeedbackGiver => false
  }

  /** The order in which `_check_badges` tries the badges. */
  const CheckOrder: seq<Badge> := [FirstChat, IronWill, NutritionPro, Level5, Level10, Streak, HydrationHero]

  /** One guarded "append if absent" step. */
  function Grant(earned: seq<Badge>, b: Badge, ok: bool): seq<Badge>
  {
    if ok && b !in earned then earned + [b] else earned
  }

  /** The badge list after the first `k` guarded lines of the sweep over `order`. */
  function Sweep(order: seq<Badge>, k: nat, earned: seq<Badge>, s: Stats): seq<Badge>
    requires k <= |order|
    decreases k
  {
    if k == 0 then earned
    else Grant(Sweep(order, k - 1, earned, s), order[k - 1], Qualifies(order[k - 1], s))
  }

  /** One step of the sweep, as seen from the list `e0` it started from. */
  lemma GrantStep(e0: seq<Badge>, e: seq<Badge>, b: Badge, ok: bool, stamp: string)
    requires e0 <= e
    ensures e0 <= Grant(e, b, ok)
    ensures BadgeNotices(Grant(e, b, ok)[|e0|..], stamp)
      == (if ok && b !in e then [BadgeNotif(b, stamp)] else []) + BadgeNotices(e[|e0|..], stamp)
  {
    if ok && b !in e {
      assert (e + [b])[|e0|..] == e[|e0|..] + [b];
      BadgeNoticesSnoc(e[|e0|..], b, stamp);
    }
  }

  /** A sweep only appends: the old list is a prefix of the new one. */
  lemma {:induction false} SweepExtends(order: seq<Badge>, k: nat, earned: seq<Badge>, s: Stats)
    requires k <= |order|
    ensures earned <= Sweep(order, k, earned, s)
  {
    if k > 0 {
      SweepExtends(order, k - 1, earned, s);
    }
  }

  /** A sweep never repeats a badge. */
  lemma {:induction false} SweepNoDup(order: seq<Badge>, k: nat, earned: seq<Badge>, s: Stats)
    requires k <= |order|
    requires NoDup(earned)
    ensures NoDup(Sweep(order, k, earned, s))
  {
    if k > 0 {
      SweepNoDup(order, k - 1, earned, s);
      GrantNoDup(Sweep(order, k - 1, earned, s), order[k - 1], Qualifies(order[k - 1], s));
    }
  }

  /** After a sweep a badge is held exactly when it was held before or it was tried and qualifies. */
  lemma {:induction false} SweepMembers(order: seq<Badge>, k: nat, earned: seq<Badge>, s: Stats, b: Badge)
    requires k <= |order|
    ensures b in Sweep(order, k, earned, s) <==> b in earned || (b in order[..k] && Qualifies(b, s))
  {
    if k > 0 {
      SweepMembers(order, k - 1, earned, s, b);
      assert order[..k] == order[..k - 1] + [order[k - 1]];
    }
  }

  /** A sweep over badges that are all already held, or do not qualify, changes nothing. */
  lemma {:induction false} SweepNoChange(order: seq<Badge>, k: nat, earned: seq<Badge>, s: Stats)
    requires k <= |order|
    requires forall b :: b in order[..k] && Qualifies(b, s) ==> b in earned
    ensures Sweep(order, k, earned, s) == earned
  {
    if k > 0 {
      assert order[..k] == order[..k - 1] + [order[k - 1]];
      SweepNoChange(order, k - 1, earned, s);
    }
  }

  /** Sweeping again with unchanged counters grants nothing. */
  lemma SweepIdempotent(order: seq<Badge>, k: nat, earned: seq<Badge>, s: Stats)
    requires k <= |order|
    ensures Sweep(order, k, Sweep(order, k, earned, s), s) == Sweep(order, k, earned, s)
  {
    var once := Sweep(order, k, earned, s);
    forall b | b in order[..k] && Qualifies(b, s) ensures b in once {
      SweepMembers(order, k, earned, s, b);
    }
    SweepNoChange(order, k, once, s);
  }

  /** The badges `_check_badges` leaves on a record: the sweep over all seven lines. */
  function Recheck(r: XpRecord, chatLen: nat, water: int): (r': XpRecord)
    ensures r' == r.(badges := r'.badges)
    ensures r.badges <= r'.badges
  {
    SweepExtends(CheckOrder, |CheckOrder|, r.badges, StatsOf(r, chatLen, water));
    r.(badges := Sweep(CheckOrder, |CheckOrder|, r.badges, StatsOf(r, chatLen, water)))
  }

  /** After a re-check a badge is held exactly when it was held before or its predicate holds. */
  lemma RecheckMembers(r: XpRecord, chatLen: nat, water: int, b: Badge)
    ensures b in Recheck(r, chatLen, water).badges <==> b in r.badges || Qualifies(b, StatsOf(r, chatLen, water))
  {
    SweepMembers(CheckOrder, |CheckOrder|, r.badges, StatsOf(r, chatLen, water), b);
    assert CheckOrder[..|CheckOrder|] == CheckOrder;
  }

  /** The points added and the level recomputed, as the loop of `award_xp` does (a negative total keeps its level). */
  function AddPoints(r: XpRecord, p: nat): XpRecord
  {
    r.(xp := r.xp + p, level := if r.xp + p >= 0 then LevelOf(r.xp + p) else r.level)
  }

  /** The record with one more meal counted. */
  function PlusMeal(r: XpRecord): XpRecord
  {
    r.(mealsLogged := r.mealsLogged + 1)
  }

  /** The record with badge `b` appended unless it is already held (the feedback badge). */
  function WithBadge(r: XpRecord, b: Badge): XpRecord
  {
    r.(badges := Grant(r.badges, b, true))
  }

  /** The record with today's date as the last login. */
  function LoggedInOn(r: XpRecord, today: string): XpRecord
  {
    r.(lastLogin := Some(today))
  }

  /** The record with one more exercise counted. */
  function PlusExercise(r: XpRecord): XpRecord
  {
    r.(exercisesDone := r.exercisesDone + 1)
  }

  /** The record `award_xp` leaves: points added, level recomputed, badges re-checked. */
  function Award(r: XpRecord, p: nat, chatLen: nat, water: int): (r': XpRecord)
    ensures r'.xp == r.xp + p
    ensures r'.mealsLogged == r.mealsLogged && r'.exercisesDone == r.exercisesDone
    ensures r'.lastLogin == r.lastLogin
    ensures r.badges <= r'.badges
  {
    var added := AddPoints(r, p);
    SweepExtends(CheckOrder, |CheckOrder|, added.badges, StatsOf(added, chatLen, water));
    Recheck(added, chatLen, water)
  }

  /** An award keeps a valid record valid and never lowers its level. */
  lemma AwardKeepsOk(r: XpRecord, p: nat, chatLen: nat, water: int)
    requires RecordOk(r)
    ensures RecordOk(Award(r, p, chatLen, water))
    ensures r.level <= Award(r, p, chatLen, water).level <= |LvlXp|
  {
    var added := AddPoints(r, p);
    LevelMonotone(r.xp, r.xp + p);
    LevelBounds(r.xp + p);
    SweepNoDup(CheckOrder, |CheckOrder|, added.badges, StatsOf(added, chatLen, water));
  }

  /** Appending a badge only when it is absent keeps a record valid. */
  lemma GrantKeepsOk(r: XpRecord, b: Badge)
    requires RecordOk(r)
    ensures RecordOk(r.(badges := Grant(r.badges, b, true)))
  {
    GrantNoDup(r.badges, b, true);
  }

  /** Re-checking keeps a record valid and only appends badges. */
  lemma RecheckOk(r: XpRecord, chatLen: nat, water: int)
    requires RecordOk(r)
    ensures RecordOk(Recheck(r, chatLen, water))
    ensures r.badges <= Recheck(r, chatLen, water).badges
  {
    SweepNoDup(CheckOrder, |CheckOrder|, r.badges, StatsOf(r, chatLen, water));
    SweepExtends(CheckOrder, |CheckOrder|, r.badges, StatsOf(r, chatLen, water));
  }

  /** Re-checking a record that was just checked with the same counters changes nothing. */
  lemma RecheckIdempotent(r: XpRecord, chatLen: nat, water: int)
    ensures Recheck(Recheck(r, chatLen, water), chatLen, water) == Recheck(r, chatLen, water)
  {
    SweepIdempotent(CheckOrder, |CheckOrder|, r.badges, StatsOf(r, chatLen, water));
  }

  /** A badge predicate that holds keeps holding when the counters grow. */
  lemma QualifiesMonotone(b: Badge, s: Stats, t: Stats)
    requires s.xp <= t.xp && s.level <= t.level
    requires s.meals <= t.meals && s.exercises <= t.exercises && s.chatLen <= t.chatLen && s.water <= t.water
    ensures Qualifies(b, s) ==> Qualifies(b, t)
  {
  }

  /**
   * The food handler counts the meal after `award_xp` has checked the badges and does not check
   * again: a fifth meal leaves the count at 5 without the nutrition badge, which only a later
   * award grants.
   */
  lemma FifthMealWithoutBadge(r: XpRecord, chatLen: nat, water: int)
    requires r.mealsLogged == 4 && NutritionPro !in r.badges
    ensures PlusMeal(Award(r, 10, chatLen, water)).mealsLogged == 5
    ensures NutritionPro !in PlusMeal(Award(r, 10, chatLen, water)).badges
    ensures NutritionPro in Award(PlusMeal(Award(r, 10, chatLen, water)), 0, chatLen, water).badges
  {
    RecheckMembers(AddPoints(r, 10), chatLen, water, NutritionPro);
    var m := PlusMeal(Award(r, 10, chatLen, water));
    RecheckMembers(AddPoints(m, 0), chatLen, water, NutritionPro);
  }

  /**
   * Awarding a then b or b then a leaves the same total, the same level and the same set of
   * badges (the order in which the badges were appended may differ).
   */
  lemma AwardCommutes(r: XpRecord, a: nat, b: nat, chatLen: nat, water: int, x: Badge)
    requires RecordOk(r)
    ensures Award(Award(r, a, chatLen, water), b, chatLen, water).xp == Award(Award(r, b, chatLen, water), a, chatLen, water).xp
    ensures Award(Award(r, a, chatLen, water), b, chatLen, water).level == Award(Award(r, b, chatLen, water), a, chatLen, water).level
    ensures x in Award(Award(r, a, chatLen, water), b, chatLen, water).badges
        <==> x in Award(Award(r, b, chatLen, water), a, chatLen, water).badges
  {
    var ra := Award(r, a, chatLen, water);
    var rb := Award(r, b, chatLen, water);
    var sa := StatsOf(AddPoints(r, a), chatLen, water);
    var sb := StatsOf(AddPoints(r, b), chatLen, water);
    var sab := StatsOf(AddPoints(ra, b), chatLen, water);
    var sba := StatsOf(AddPoints(rb, a), chatLen, water);
    assert sab == sba;
    LevelMonotone(r.xp + a, r.xp + a + b);
    LevelMonotone(r.xp + b, r.xp + a + b);
    RecheckMembers(AddPoints(r, a), chatLen, water, x);
    RecheckMembers(AddPoints(r, b), chatLen, water, x);
    RecheckMembers(AddPoints(ra, b), chatLen, water, x);
    RecheckMembers(AddPoints(rb, a), chatLen, water, x);
    QualifiesMonotone(x, sa, sab);
    QualifiesMonotone(x, sb, sba);
  }

  // ---------------------------------------------------------------------------------------
  // Notifications (add_notif / unread / mark_read)
  // ---------------------------------------------------------------------------------------

  /** One entry of a user's notification list; `time` is the opaque timestamp text. */
  datatype Notif = Notif(msg: string, time: string, read: bool, kind: string)

  /** The unread entry `add_notif` puts at the front. */
  function NewNotif(msg: string, kind: string, stamp: string): Notif
  {
    Notif(msg, stamp, false, kind)
  }

  /** The entry pushed for a newly earned badge. */
  function BadgeNotif(b: Badge, stamp: string): Notif
  {
    NewNotif(BadgeMessage(b), "success", stamp)
  }

  /**
   * The entries a sweep that appended `added` (in that order) pushes to the front of the list:
   * each insertion goes to index 0, so the last badge granted comes first.
   */
  function BadgeNotices(added: seq<Badge>, stamp: string): (ns: seq<Notif>)
    ensures |ns| == |added|
    ensures forall i :: 0 <= i < |ns| ==> ns[i] == BadgeNotif(added[|added| - 1 - i], stamp)
  {
    if added == [] then []
    else BadgeNotices(added[1..], stamp) + [BadgeNotif(added[0], stamp)]
  }

  /** Granting one more badge pushes exactly one entry, for that badge, in front of the earlier ones. */
  lemma {:induction false} BadgeNoticesSnoc(added: seq<Badge>, b: Badge, stamp: string)
    ensures BadgeNotices(added + [b], stamp) == [BadgeNotif(b, stamp)] + BadgeNotices(added, stamp)
  {
    if added == [] {
      assert [b][1..] == [];
    } else {
      assert (added + [b])[1..] == added[1..] + [b];
      BadgeNoticesSnoc(added[1..], b, stamp);
    }
  }

  /** The entries for badges granted in two rounds: the later round's come first. */
  lemma {:induction false} BadgeNoticesAppend(x: seq<Badge>, y: seq<Badge>, stamp: string)
    ensures BadgeNotices(x + y, stamp) == BadgeNotices(y, stamp) + BadgeNotices(x, stamp)
  {
    if x != [] {
      assert (x + y)[1..] == x[1..] + y;
      assert (x + y)[0] == x[0];
      BadgeNoticesAppend(x[1..], y, stamp);
    } else {
      assert x + y == y;
    }
  }

  /** The entries pushed for the badges appended between three successive lists. */
  lemma BadgeNoticesChain(a: seq<Badge>, b: seq<Badge>, c: seq<Badge>, stamp: string)
    requires a <= b <= c
    ensures BadgeNotices(c[|a|..], stamp) == BadgeNotices(c[|b|..], stamp) + BadgeNotices(b[|a|..], stamp)
  {
    assert c[|a|..] == b[|a|..] + c[|b|..];
    BadgeNoticesAppend(b[|a|..], c[|b|..], stamp);
  }

  /** The notification book after `entries` are inserted, one by one and last first, at the front of `user`'s list. */
  function Push(book: map<string, seq<Notif>>, user: string, entries: seq<Notif>): (book': map<string, seq<Notif>>)
    ensures entries == [] ==> book' == book
    ensures entries != [] ==> user in book' && |entries| <= |book'[user]| && book'[user][..|entries|] == entries
    ensures entries != [] ==> book'[user][|entries|..] == (if user in book then book[user] else [])
    ensures forall u :: u != user ==> (u in book' <==> u in book) && (u in book ==> book'[u] == book[u])
  {
    if entries == [] then book
    else book[user := entries + (if user in book then book[user] else [])]
  }

  /** Two pushes in a row are one push of the later entries in front of the earlier ones. */
  lemma PushPush(book: map<string, seq<Notif>>, user: string, first: seq<Notif>, second: seq<Notif>)
    ensures Push(Push(book, user, first), user, second) == Push(book, user, second + first)
  {
    if second == [] {
      assert second + first == first;
    } else if first == [] {
      assert second + first == second;
    } else {
      var base := if user in book then book[user] else [];
      assert second + (first + base) == (second + first) + base;
    }
  }

  /** The number of unread entries (the `unread` helper). */
  function UnreadCount(ns: seq<Notif>): (n: nat)
    ensures n <= |ns|
  {
    if ns == [] then 0 else (if ns[0].read then 0 else 1) + UnreadCount(ns[1..])
  }

  /** Nothing is unread exactly when every entry is read. */
  lemma {:induction false} UnreadZeroIffAllRead(ns: seq<Notif>)
    ensures UnreadCount(ns) == 0 <==> forall i :: 0 <= i < |ns| ==> ns[i].read
  {
    if ns != [] {
      UnreadZeroIffAllRead(ns[1..]);
      assert forall i :: 1 <= i < |ns| ==> ns[i] == ns[1..][i - 1];
    }
  }
}
