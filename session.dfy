/**
 * The application's session state (`st.session_state`) as one object, with the ledger, the
 * notification helpers, the tracker, the dispatcher's cooldown, the accounts and the event
 * handlers that feed them. Every dictionary the application mutates in place is a `map` field
 * that the methods reassign; each method states the whole new state in terms of the old one
 * and of the functions of progression.dfy, dispatcher.dfy and accounts.dfy, where the
 * properties are proved.
 */
module Coach {
  import opened Wrappers
  import opened Text
  import opened Progression
  import opened Activity
  import opened Dispatcher
  import opened Accounts

  /** The notification texts of the handlers. */
  function ExerciseDoneMessage(points: nat, name: string): string
  {
    "\U{2705} +" + NatToString(points) + " XP \U{2014} " + name
  }

  function FoodLoggedMessage(points: nat, name: string, calories: nat): string
  {
    "\U{1F34E} +" + NatToString(points) + " XP \U{2014} " + name + " (" + NatToString(calories) + " kcal)"
  }

  function FeedbackMessage(points: nat, category: string): string
  {
    "\U{1F4E8} +" + NatToString(points) + " XP \U{2014} " + category + " feedback received!"
  }

  const InvalidLogin: string := "Invalid username or password."

  /** Storing twice under one key keeps the later value. */
  lemma UpdateTwice<K, V>(m: map<K, V>, k: K, a: V, b: V)
    ensures m[k := a][k := b] == m[k := b]
  {
  }

  class Session {
    var users: map<string, Account>
    var currentUser: Option<string>
    var loginError: string
    var signupError: string
    var xpData: map<string, XpRecord>
    var notifications: map<string, seq<Notif>>
    var trackerData: map<string, Tracker>
    var chatHistory: map<string, seq<ChatMessage>>
    /** The time before which no request is sent (`gemini_retry_after`). */
    var retryAfter: real

    /** Every XP record keeps the level formula, has no repeated badge and no negative counter. */
    ghost predicate Valid()
      reads this`xpData
    {
      LedgerOk(xpData)
    }

    /** A new session over the users read from the user file. */
    constructor (loaded: map<string, Account>)
      ensures Valid()
      ensures users == loaded && currentUser == None && loginError == "" && signupError == ""
      ensures xpData == map[] && notifications == map[] && trackerData == map[] && chatHistory == map[]
      ensures retryAfter == 0.0
    {
      users := loaded;
      currentUser := None;
      loginError := "";
      signupError := "";
      xpData := map[];
      notifications := map[];
      trackerData := map[];
      chatHistory := map[];
      retryAfter := 0.0;
    }

    /** The user's record, or the one `get_xp` would create. */
    function RecordOf(user: string): XpRecord
      reads this`xpData
    {
      if user in xpData then xpData[user] else FreshRecord
    }

    function NotifsOf(user: string): seq<Notif>
      reads this`notifications
    {
      if user in notifications then notifications[user] else []
    }

    function HistoryOf(user: string): seq<ChatMessage>
      reads this`chatHistory
    {
      if user in chatHistory then chatHistory[user] else []
    }

    /** The water total the hydration badge looks at (0 without a tracker). */
    function Water(user: string): int
      reads this`trackerData
    {
      if user in trackerData then trackerData[user].water else 0
    }

    /** `unread`: how many of the user's notifications are unread. */
    function Unread(user: string): nat
      reads this`notifications
    {
      UnreadCount(NotifsOf(user))
    }

    // -------------------------------------------------------------------------------------
    // Ledger
    // -------------------------------------------------------------------------------------

    /** `get_xp`: the user's record, created on first access. */
    method GetXp(user: string) returns (d: XpRecord)
      requires Valid()
      modifies this`xpData
      ensures Valid() && RecordOk(d)
      ensures d == old(RecordOf(user))
      ensures xpData == old(xpData)[user := d]
      ensures old(user in xpData) ==> xpData == old(xpData)
    {
      if user !in xpData {
        FreshRecordOk();
        LedgerOkUpdate(xpData, user, FreshRecord);
        xpData := xpData[user := FreshRecord];
      }
      d := xpData[user];
      assert xpData[user := d] == xpData;
    }

    /** `add_notif`: a new unread entry at the front of the user's list. */
    method AddNotif(user: string, msg: string, kind: string, stamp: string)
      modifies this`notifications
      ensures notifications == Push(old(notifications), user, [NewNotif(msg, kind, stamp)])
      ensures |NotifsOf(user)| == |old(NotifsOf(user))| + 1
      ensures Unread(user) == old(Unread(user)) + 1
    {
      var ns := if user in notifications then notifications[user] else [];
      notifications := notifications[user := [NewNotif(msg, kind, stamp)] + ns];
      assert ([NewNotif(msg, kind, stamp)] + ns)[1..] == ns;
    }

    /** `mark_read`: every entry of the user's list becomes read; nothing else changes. */
    method MarkRead(user: string)
      modifies this`notifications
      ensures user !in old(notifications) ==> notifications == old(notifications)
      ensures user in old(notifications) ==>
        && notifications.Keys == old(notifications).Keys
        && (forall u :: u in notifications && u != user ==> notifications[u] == old(notifications)[u])
        && |notifications[user]| == |old(notifications)[user]|
        && (forall i :: 0 <= i < |notifications[user]| ==>
              notifications[user][i] == old(notifications)[user][i].(read := true))
      ensures Unread(user) == 0
    {
      if user in notifications {
        ghost var orig := notifications[user];
        var ns := notifications[user];
        var i := 0;
        while i < |ns|
          invariant 0 <= i <= |ns| == |orig|
          invariant forall j :: 0 <= j < i ==> ns[j] == orig[j].(read := true)
          invariant forall j :: i <= j < |ns| ==> ns[j] == orig[j]
        {
          ns := ns[i := ns[i].(read := true)];
          i := i + 1;
        }
        notifications := notifications[user := ns];
      }
      UnreadZeroIffAllRead(NotifsOf(user));
    }

    /** `g(bid)` inside `_check_badges`: append the badge to `earned` if absent, and announce it. */
    method GrantBadge(user: string, earned: seq<Badge>, b: Badge, stamp: string) returns (earned': seq<Badge>)
      modifies this`notifications
      ensures earned' == Grant(earned, b, true)
      ensures notifications == Push(old(notifications), user, if b in earned then [] else [BadgeNotif(b, stamp)])
    {
      earned' := earned;
      if b !in earned {
        earned' := earned + [b];
        AddNotif(user, BadgeMessage(b), "success", stamp);
      }
    }

    /**
     * One line `if cond: g(bid)` of `_check_badges`, seen from the list `e0` the sweep started
     * from: the entries for every badge appended since then are pushed.
     */
    method TryBadge(user: string, earned: seq<Badge>, k: nat, cond: bool, stamp: string,
                    ghost st: Stats, ghost e0: seq<Badge>, ghost n0: map<string, seq<Notif>>)
      returns (earned': seq<Badge>)
      requires k < |CheckOrder| && cond == Qualifies(CheckOrder[k], st)
      requires earned == Sweep(CheckOrder, k, e0, st) && e0 <= earned
      requires notifications == Push(n0, user, BadgeNotices(earned[|e0|..], stamp))
      modifies this`notifications
      ensures earned' == Sweep(CheckOrder, k + 1, e0, st) && e0 <= earned'
      ensures notifications == Push(n0, user, BadgeNotices(earned'[|e0|..], stamp))
    {
      var b := CheckOrder[k];
      SweepExtends(CheckOrder, k, e0, st);
      GrantStep(e0, earned, b, cond, stamp);
      PushPush(n0, user, BadgeNotices(earned[|e0|..], stamp), if cond && b !in earned then [BadgeNotif(b, stamp)] else []);
      earned' := earned;
      if cond {
        earned' := GrantBadge(user, earned, b, stamp);
      }
    }

    /**
     * The first four lines of `_check_badges`: chat, exercises, meals, level 5. The source has
     * no such split; it is a proof helper that keeps the verification of SweepBadges small.
     */
    method SweepFirstLines(user: string, d: XpRecord, chatLen: nat, stamp: string, ghost st: Stats)
      returns (earned: seq<Badge>)
      requires st.chatLen == chatLen && st.exercises == d.exercisesDone && st.meals == d.mealsLogged && st.level == d.level
      modifies this`notifications
      ensures earned == Sweep(CheckOrder, 4, d.badges, st) && d.badges <= earned
      ensures notifications == Push(old(notifications), user, BadgeNotices(earned[|d.badges|..], stamp))
    {
      earned := d.badges;
      ghost var n0 := notifications;
      assert earned[|earned|..] == [] && earned == Sweep(CheckOrder, 0, d.badges, st);
      earned := TryBadge(user, earned, 0, chatLen >= 1, stamp, st, d.badges, n0);
      earned := TryBadge(user, earned, 1, d.exercisesDone >= 5, stamp, st, d.badges, n0);
      earned := TryBadge(user, earned, 2, d.mealsLogged >= 5, stamp, st, d.badges, n0);
      earned := TryBadge(user, earned, 3, d.level >= 5, stamp, st, d.badges, n0);
    }

    /**
     * The seven lines of `_check_badges` over a record `d`, with the user's chat length and
     * water total: returns the badge list they leave and pushes an entry for each badge added.
     */
    method SweepBadges(user: string, d: XpRecord, chatLen: nat, water: int, stamp: string) returns (earned: seq<Badge>)
      modifies this`notifications
      ensures earned == Recheck(d, chatLen, water).badges
      ensures notifications == Push(old(notifications), user, BadgeNotices(earned[|d.badges|..], stamp))
    {
      ghost var n0 := notifications;
      ghost var st := StatsOf(d, chatLen, water);
      earned := SweepFirstLines(user, d, chatLen, stamp, st);
      earned := TryBadge(user, earned, 4, d.level >= 10, stamp, st, d.badges, n0);
      earned := TryBadge(user, earned, 5, d.xp >= 200, stamp, st, d.badges, n0);
      earned := TryBadge(user, earned, 6, water >= 2000, stamp, st, d.badges, n0);
      assert |CheckOrder| == 7;
    }

    /**
     * `_check_badges`: the badge sweep over the user's record, in the fixed order. The badge
     * list is appended to in place; the model appends to a copy and stores it back at the end,
     * which nothing in between can observe.
     */
    method CheckBadges(user: string, stamp: string)
      requires user in xpData
      modifies this`xpData, this`notifications
      ensures var r := old(xpData)[user];
        var r' := Recheck(r, |HistoryOf(user)|, Water(user));
        && xpData == old(xpData)[user := r']
        && r.badges <= r'.badges
        && notifications == Push(old(notifications), user, BadgeNotices(r'.badges[|r.badges|..], stamp))
    {
      var d := xpData[user];
      var earned := SweepBadges(user, d, |HistoryOf(user)|, Water(user), stamp);
      xpData := xpData[user := d.(badges := earned)];
    }

    /** `award_xp`: add the points, recompute the level, re-check the badges; returns the points. */
    method AwardXp(user: string, action: string, pts: Option<nat>, stamp: string) returns (p: nat)
      requires Valid()
      modifies this`xpData, this`notifications
      ensures Valid()
      ensures p == Points(action, pts)
      ensures var r0 := old(RecordOf(user));
        var r := Award(r0, p, |HistoryOf(user)|, Water(user));
        && xpData == old(xpData)[user := r]
        && notifications == Push(old(notifications), user, BadgeNotices(r.badges[|r0.badges|..], stamp))
    {
      ghost var x0 := xpData;
      var d := GetXp(user);
      ghost var r0 := d;
      p := if pts.Some? then pts.value else if action in XpRewards then XpRewards[action] else 0;
      d := d.(xp := d.xp + p);
      var level := RecomputeLevel(d.xp, d.level);
      d := d.(level := level);
      xpData := xpData[user := d];
      assert d == AddPoints(r0, p);
      ghost var chatLen, water := |HistoryOf(user)|, Water(user);
      CheckBadges(user, stamp);
      ghost var r := Award(r0, p, chatLen, water);
      assert xpData[user] == r;
      UpdateTwice(x0, user, r0, d);
      UpdateTwice(x0, user, d, r);
      AwardKeepsOk(r0, p, chatLen, water);
      LedgerOkUpdate(x0, user, r);
    }

    // -------------------------------------------------------------------------------------
    // Tracker and event handlers
    // -------------------------------------------------------------------------------------

    /** `ensure_tracker`: a user seen for the first time gets an empty log and the default workout, stamped now. */
    method EnsureTracker(user: string, stamp: string)
      modifies this`trackerData
      ensures user in trackerData
      ensures user in old(trackerData) ==> trackerData == old(trackerData)
      ensures user !in old(trackerData) ==>
        && trackerData == old(trackerData)[user := trackerData[user]]
        && trackerData[user].foodLog == [] && trackerData[user].water == 0
        && |trackerData[user].exercises| == |DefaultEx|
        && (forall i :: 0 <= i < |DefaultEx| ==> trackerData[user].exercises[i] == DefaultEx[i].(time := stamp))
    {
      if user !in trackerData {
        var exs := DefaultEx;
        for i := 0 to |exs|
          invariant |exs| == |DefaultEx|
          invariant forall j :: 0 <= j < i ==> exs[j] == DefaultEx[j].(time := stamp)
          invariant forall j :: i <= j < |exs| ==> exs[j] == DefaultEx[j]
        {
          exs := exs[i := exs[i].(time := stamp)];
        }
        trackerData := trackerData[user := Tracker([], 0, exs)];
      }
    }

    /** A water button: add `amount` ml, award `amount // 60` points, and re-check the badges, which adds nothing more. */
    method AddWater(user: string, amount: nat, stamp: string)
      requires Valid() && user in trackerData && amount in WaterButtons
      modifies this`trackerData, this`xpData, this`notifications
      ensures Valid()
      ensures trackerData == old(trackerData)[user := Drink(old(trackerData)[user], amount)]
      ensures var r0 := old(RecordOf(user));
        var r := Award(r0, amount / 60, |HistoryOf(user)|, Water(user));
        && xpData == old(xpData)[user := r]
        && notifications == Push(old(notifications), user, BadgeNotices(r.badges[|r0.badges|..], stamp))
    {
      trackerData := trackerData[user := Drink(trackerData[user], amount)];
      var _ := AwardXp(user, "water_500", Some(amount / 60), stamp);
      RecheckAgain(user, stamp);
    }

    /** The second badge check of the water buttons, on a record `award_xp` has just checked: it changes nothing. */
    method RecheckAgain(user: string, stamp: string)
      requires Valid() && user in xpData
      requires exists r :: xpData[user] == Recheck(r, |HistoryOf(user)|, Water(user))
      modifies this`xpData, this`notifications
      ensures Valid()
      ensures xpData == old(xpData) && notifications == old(notifications)
    {
      ghost var r :| xpData[user] == Recheck(r, |HistoryOf(user)|, Water(user));
      ghost var x1, n1 := xpData, notifications;
      ghost var d := xpData[user];
      CheckBadges(user, stamp);
      RecheckIdempotent(r, |HistoryOf(user)|, Water(user));
      assert xpData == x1;
      assert d.badges[|d.badges|..] == [];
    }

    /** Counts one more exercise in a stored record. */
    method CountExercise(user: string)
      requires Valid() && user in xpData
      modifies this`xpData
      ensures Valid()
      ensures xpData == old(xpData)[user := PlusExercise(old(xpData)[user])]
    {
      LedgerOkUpdate(xpData, user, PlusExercise(xpData[user]));
      xpData := xpData[user := PlusExercise(xpData[user])];
    }

    /** Counts one more exercise in a stored record and re-checks its badges with the new count. */
    method CountAndRecheck(user: string, stamp: string)
      requires Valid() && user in xpData
      modifies this`xpData, this`notifications
      ensures Valid()
      ensures var r0 := old(xpData)[user];
        var r := Recheck(PlusExercise(r0), |HistoryOf(user)|, Water(user));
        && xpData == old(xpData)[user := r]
        && notifications == Push(old(notifications), user, BadgeNotices(r.badges[|r0.badges|..], stamp))
    {
      ghost var x0, r0 := xpData, xpData[user];
      CountExercise(user);
      CheckBadges(user, stamp);
      UpdateTwice(x0, user, PlusExercise(r0), xpData[user]);
      RecheckOk(PlusExercise(r0), |HistoryOf(user)|, Water(user));
    }

    /**
     * The ledger half of the "mark done" button: award the exercise points, count the exercise,
     * re-check the badges with the new count and announce the points.
     */
    method AwardExercise(user: string, name: string, stamp: string)
      requires Valid()
      modifies this`xpData, this`notifications
      ensures Valid()
      ensures var r0 := old(RecordOf(user));
        var r2 := Recheck(PlusExercise(Award(r0, 25, |HistoryOf(user)|, Water(user))), |HistoryOf(user)|, Water(user));
        && xpData == old(xpData)[user := r2]
        && notifications == Push(old(notifications), user,
             [NewNotif(ExerciseDoneMessage(25, name), "info", stamp)] + BadgeNotices(r2.badges[|r0.badges|..], stamp))
    {
      ghost var x0, n0, r0 := xpData, notifications, RecordOf(user);
      ghost var chatLen, water := |HistoryOf(user)|, Water(user);
      var pts := AwardXp(user, "exercise_done", None, stamp);
      RewardTable();
      ghost var r1 := Award(r0, 25, chatLen, water);
      assert xpData == x0[user := r1];
      CountAndRecheck(user, stamp);
      ghost var r2 := Recheck(PlusExercise(r1), chatLen, water);
      UpdateTwice(x0, user, r1, r2);
      AddNotif(user, ExerciseDoneMessage(pts, name), "info", stamp);
      BadgeNoticesChain(r0.badges, r1.badges, r2.badges, stamp);
      PushPush(n0, user, BadgeNotices(r1.badges[|r0.badges|..], stamp), BadgeNotices(r2.badges[|r1.badges|..], stamp));
      PushPush(n0, user, BadgeNotices(r2.badges[|r0.badges|..], stamp), [NewNotif(ExerciseDoneMessage(pts, name), "info", stamp)]);
    }

    /** The "mark done" button of exercise `i`: complete it, then award and count it. */
    method CompleteExercise(user: string, i: nat, stamp: string)
      requires Valid() && user in trackerData
      requires i < |trackerData[user].exercises| && !trackerData[user].exercises[i].completed
      modifies this`trackerData, this`xpData, this`notifications
      ensures Valid()
      ensures trackerData == old(trackerData)[user := MarkDone(old(trackerData)[user], i)]
      ensures var r0 := old(RecordOf(user));
        var r2 := Recheck(PlusExercise(Award(r0, 25, |HistoryOf(user)|, Water(user))), |HistoryOf(user)|, Water(user));
        && xpData == old(xpData)[user := r2]
        && notifications == Push(old(notifications), user,
             [NewNotif(ExerciseDoneMessage(25, old(trackerData)[user].exercises[i].name), "info", stamp)]
             + BadgeNotices(r2.badges[|r0.badges|..], stamp))
    {
      var name := trackerData[user].exercises[i].name;
      trackerData := trackerData[user := MarkDone(trackerData[user], i)];
      AwardExercise(user, name, stamp);
    }

    /** Counts one more meal in a stored record. */
    method CountMeal(user: string)
      requires Valid() && user in xpData
      modifies this`xpData
      ensures Valid()
      ensures xpData == old(xpData)[user := PlusMeal(old(xpData)[user])]
    {
      LedgerOkUpdate(xpData, user, PlusMeal(xpData[user]));
      xpData := xpData[user := PlusMeal(xpData[user])];
    }

    /** The ledger half of the "add food" form: award the food points, count the meal, announce the points. */
    method AwardMeal(user: string, name: string, calories: nat, stamp: string)
      requires Valid()
      modifies this`xpData, this`notifications
      ensures Valid()
      ensures var r0 := old(RecordOf(user));
        var r1 := Award(r0, 10, |HistoryOf(user)|, Water(user));
        && xpData == old(xpData)[user := PlusMeal(r1)]
        && notifications == Push(old(notifications), user,
             [NewNotif(FoodLoggedMessage(10, name, calories), "info", stamp)] + BadgeNotices(r1.badges[|r0.badges|..], stamp))
    {
      ghost var x0, n0, r0 := xpData, notifications, RecordOf(user);
      ghost var chatLen, water := |HistoryOf(user)|, Water(user);
      var pts := AwardXp(user, "food_logged", None, stamp);
      RewardTable();
      ghost var r1 := Award(r0, 10, chatLen, water);
      ghost var bn := BadgeNotices(r1.badges[|r0.badges|..], stamp);
      assert xpData == x0[user := r1];
      CountMeal(user);
      UpdateTwice(x0, user, r1, PlusMeal(r1));
      AddNotif(user, FoodLoggedMessage(pts, name, calories), "info", stamp);
      PushPush(n0, user, bn, [NewNotif(FoodLoggedMessage(10, name, calories), "info", stamp)]);
    }

    /**
     * The "add food" form: a blank name changes nothing; otherwise log the entry, award the
     * food points, count the meal and announce the points. The badges are not re-checked after
     * the meal is counted. `entryTime` is the "HH:MM" text stored with the entry, `stamp` the
     * time of the notifications.
     */
    method LogFood(user: string, name: string, calories: nat, protein: nat, carbs: nat, fat: nat,
                   entryTime: string, stamp: string)
      requires Valid() && user in trackerData
      modifies this`trackerData, this`xpData, this`notifications
      ensures Valid()
      ensures Blank(name) ==>
        trackerData == old(trackerData) && xpData == old(xpData) && notifications == old(notifications)
      ensures !Blank(name) ==>
        var r0 := old(RecordOf(user));
        var r1 := Award(r0, 10, |HistoryOf(user)|, Water(user));
        && trackerData == old(trackerData)[user := LogMeal(old(trackerData)[user], Food(name, calories, protein, carbs, fat, entryTime))]
        && xpData == old(xpData)[user := PlusMeal(r1)]
        && notifications == Push(old(notifications), user,
             [NewNotif(FoodLoggedMessage(10, name, calories), "info", stamp)] + BadgeNotices(r1.badges[|r0.badges|..], stamp))
    {
      StripEmptyIffBlank(name);
      if Strip(name) != "" {
        trackerData := trackerData[user := LogMeal(trackerData[user], Food(name, calories, protein, carbs, fat, entryTime))];
        AwardMeal(user, name, calories, stamp);
      }
    }

    /** Appends the feedback badge to a stored record unless it is already there; no notification. */
    method GiveFeedbackBadge(user: string)
      requires Valid() && user in xpData
      modifies this`xpData
      ensures Valid()
      ensures xpData == old(xpData)[user := WithBadge(old(xpData)[user], FeedbackGiver)]
    {
      var d := xpData[user];
      GrantKeepsOk(d, FeedbackGiver);
      LedgerOkUpdate(xpData, user, WithBadge(d, FeedbackGiver));
      if FeedbackGiver !in d.badges {
        xpData := xpData[user := d.(badges := d.badges + [FeedbackGiver])];
      } else {
        assert xpData == xpData[user := WithBadge(d, FeedbackGiver)];
      }
    }

    /**
     * The feedback form: blank comments change nothing; otherwise award the feedback points,
     * append the feedback badge directly (without a notification of its own) and announce the
     * points.
     */
    method SubmitFeedback(user: string, comments: string, category: string, stamp: string)
      requires Valid()
      modifies this`xpData, this`notifications
      ensures Valid()
      ensures Blank(comments) ==> xpData == old(xpData) && notifications == old(notifications)
      ensures !Blank(comments) ==>
        var r0 := old(RecordOf(user));
        var r1 := Award(r0, 30, |HistoryOf(user)|, Water(user));
        && xpData == old(xpData)[user := WithBadge(r1, FeedbackGiver)]
        && notifications == Push(old(notifications), user,
             [NewNotif(FeedbackMessage(30, category), "success", stamp)]
             + BadgeNotices(r1.badges[|r0.badges|..], stamp))
    {
      StripEmptyIffBlank(comments);
      if Strip(comments) != "" {
        ghost var x0, n0, r0 := xpData, notifications, RecordOf(user);
        ghost var chatLen, water := |HistoryOf(user)|, Water(user);
        var pts := AwardXp(user, "feedback", None, stamp);
        RewardTable();
        ghost var r1 := Award(r0, 30, chatLen, water);
        assert xpData == x0[user := r1];
        GiveFeedbackBadge(user);
        UpdateTwice(x0, user, r1, WithBadge(r1, FeedbackGiver));
        ghost var bn := BadgeNotices(r1.badges[|r0.badges|..], stamp);
        AddNotif(user, FeedbackMessage(pts, category), "success", stamp);
        PushPush(n0, user, bn, [NewNotif(FeedbackMessage(30, category), "success", stamp)]);
      }
    }

    // -------------------------------------------------------------------------------------
    // Accounts
    // -------------------------------------------------------------------------------------

    /**
     * `submit_login`: on success the user becomes current, the record is created if needed and,
     * on the first login of the day, the day is stored and the login bonus awarded.
     */
    method SubmitLogin(hash: string -> string, username: string, password: string, today: string, stamp: string)
      requires Valid()
      modifies this`currentUser, this`loginError, this`xpData, this`notifications
      ensures Valid()
      ensures !LoginAccepted(hash, users, username, password) ==>
        && loginError == InvalidLogin && currentUser == old(currentUser)
        && xpData == old(xpData) && notifications == old(notifications)
      ensures LoginAccepted(hash, users, username, password) ==>
        var u := Strip(username);
        var r0 := old(RecordOf(u));
        && currentUser == Some(u) && loginError == ""
        && (r0.lastLogin == Some(today) ==> xpData == old(xpData)[u := r0] && notifications == old(notifications))
        && (r0.lastLogin != Some(today) ==>
              var r := Award(LoggedInOn(r0, today), 20, |HistoryOf(u)|, Water(u));
              && xpData == old(xpData)[u := r]
              && notifications == Push(old(notifications), u, BadgeNotices(r.badges[|r0.badges|..], stamp)))
    {
      var u := Strip(username);
      if u in users && VerifyPassword(hash, users[u].password, password) {
        currentUser := Some(u);
        loginError := "";
        ghost var x0 := xpData;
        var d := GetXp(u);
        if d.lastLogin != Some(today) {
          LedgerOkUpdate(xpData, u, LoggedInOn(d, today));
          xpData := xpData[u := LoggedInOn(d, today)];
          UpdateTwice(x0, u, d, LoggedInOn(d, today));
          var _ := AwardXp(u, "login", None, stamp);
          RewardTable();
          UpdateTwice(x0, u, LoggedInOn(d, today), xpData[u]);
        }
      } else {
        loginError := InvalidLogin;
      }
    }

    /** `submit_signup`: the three checks in order, then exactly one new user, who becomes current. */
    method SubmitSignup(hash: string -> string, fullname: string, username: string, email: string,
                        password: string, confirm: string)
      modifies this`users, this`currentUser, this`signupError
      ensures var c := SignupDecision(old(users), fullname, username, email, password, confirm);
        && (c.Rejected? ==> signupError == c.message && users == old(users) && currentUser == old(currentUser))
        && (c.Accepted? ==>
              && users == old(users)[Strip(username) := NewAccount(hash, fullname, email, password)]
              && Strip(username) !in old(users)
              && currentUser == Some(Strip(username)) && signupError == "")
    {
      var fn, un, em := Strip(fullname), Strip(username), Strip(email);
      if fn == "" || un == "" || em == "" || password == "" || confirm == "" {
        signupError := AllFieldsRequired;
        return;
      }
      if password != confirm {
        signupError := PasswordsDiffer;
        return;
      }
      if un in users {
        signupError := UsernameTaken;
        return;
      }
      users := users[un := Account(hash(password), fn, em, map[])];
      currentUser := Some(un);
      signupError := "";
    }

    // -------------------------------------------------------------------------------------
    // Dispatcher and chat
    // -------------------------------------------------------------------------------------

    /**
     * `get_ai_response`: `now` is the clock at the call, `clockAfter` the clock when a cooldown
     * is written, `net[i]` the outcome of the i-th request. Returns the reply, the number of
     * requests made and the contents they carried.
     */
    method GetAiResponse(keys: KeySources, userMessage: string, history: seq<ChatMessage>,
                         now: real, clockAfter: real, net: seq<Outcome>)
      returns (reply: Reply, attempts: nat, request: Option<seq<Content>>)
      requires |net| == MaxAttempts
      modifies this`retryAfter
      ensures Dispatch(reply, attempts, request) == Respond(GeminiKey(keys), now, old(retryAfter), userMessage, history, net)
      ensures retryAfter == if reply.SetsCooldown() then clockAfter + CooldownSeconds else old(retryAfter)
    {
      var key := GeminiKey(keys);
      if !Configured(key) {
        return NotConfigured, 0, None;
      }
      if now < retryAfter {
        return CoolingDown(WaitSeconds(now, retryAfter)), 0, None;
      }
      var contents := BuildContents(history, userMessage);
      var exit := RunAttempts(net);
      RunEnds(net, 0);
      assert exit == RunFrom(net, 0);
      reply := Handle(exit.step);
      if reply.SetsCooldown() {
        retryAfter := clockAfter + CooldownSeconds;
      }
      return reply, exit.attempts, Some(contents);
    }
  }
}
