/** Rule-based form feedback: rules kept in priority order, evaluated per frame, a rule whose
    check raises being skipped. */
module Feedback {
  import opened Wrappers
  import opened Geometry

  /** The five built-in checks. */
  datatype Condition = KneeValgus | ForwardLean | LeftRightAsymmetry | PoorDepth | TooFast

  /** A rule: lower `priority` means more important. */
  datatype FeedbackRule = FeedbackRule(name: string, condition: Condition, message: string, priority: int)

  const DefaultPriority := 5

  /** A rule built without an explicit priority. */
  function NewRule(name: string, condition: Condition, message: string): (r: FeedbackRule)
    ensures r.priority == DefaultPriority && r.name == name && r.message == message
    ensures r.condition == condition
  {
    FeedbackRule(name, condition, message, DefaultPriority)
  }

  /** Frame context: numeric values by key (`asymmetry_value`, `current_rom`, ...). */
  type Context = map<string, real>

  /** `lean(dx, dy)` is the torso's angle from vertical in degrees, |atan2(dx, -dy)|. */
  type LeanAngle = (real, real) -> real

  /** Knee collapsing inward: left knee more than 0.02 left of the left ankle; `None` when the
      frame has too few landmarks (the check raises and is skipped). */
  function KneeValgusCheck(landmarks: seq<Landmark>): (r: Option<bool>)
    ensures r.None? <==> |landmarks| <= LeftAnkle
    ensures r.Some? ==> (r.value <==> landmarks[LeftKnee].x + 0.02 < landmarks[LeftAnkle].x)
  {
    if |landmarks| <= LeftAnkle then None
    else Some(landmarks[LeftKnee].x < landmarks[LeftAnkle].x - 0.02)
  }

  /** Torso more than 25 degrees from vertical, measured from left hip to left shoulder. */
  function ForwardLeanCheck(landmarks: seq<Landmark>, lean: LeanAngle): (r: Option<bool>)
    ensures r.None? <==> |landmarks| <= LeftHip
    ensures r.Some? ==>
              (r.value <==> lean(landmarks[LeftShoulder].x - landmarks[LeftHip].x,
                                 landmarks[LeftShoulder].y - landmarks[LeftHip].y) > 25.0)
  {
    if |landmarks| <= LeftHip then None
    else
      var dx := landmarks[LeftShoulder].x - landmarks[LeftHip].x;
      var dy := landmarks[LeftShoulder].y - landmarks[LeftHip].y;
      Some(lean(dx, dy) > 25.0)
  }

  function AsymmetryCheck(context: Context): (r: bool)
    ensures "asymmetry_value" !in context ==> !r
    ensures "asymmetry_value" in context ==> (r <==> context["asymmetry_value"] > 15.0)
  {
    Get(context, "asymmetry_value", 0.0) > 15.0
  }

  /** A positive ROM below 60% of the target (target 90 when absent). */
  function PoorDepthCheck(context: Context): (r: bool)
    ensures "current_rom" !in context ==> !r
    ensures "current_rom" in context && "target_rom" !in context ==>
              (r <==> 0.0 < context["current_rom"] < 54.0)
    ensures "current_rom" in context && "target_rom" in context ==>
              (r <==> 0.0 < context["current_rom"] < context["target_rom"] * 0.6)
  {
    var rom := Get(context, "current_rom", 0.0);
    var target := Get(context, "target_rom", 90.0);
    rom > 0.0 && rom < target * 0.6
  }

  /** A positive rep time below half the ideal (ideal 3 s when absent). */
  function TooFastCheck(context: Context): (r: bool)
    ensures "rep_time" !in context ==> !r
    ensures "rep_time" in context && "ideal_rep_time" !in context ==>
              (r <==> 0.0 < context["rep_time"] < 1.5)
    ensures "rep_time" in context && "ideal_rep_time" in context ==>
              (r <==> 0.0 < context["rep_time"] < context["ideal_rep_time"] * 0.5)
  {
    var repTime := Get(context, "rep_time", 0.0);
    var ideal := Get(context, "ideal_rep_time", 3.0);
    repTime > 0.0 && repTime < ideal * 0.5
  }

  /** Outcome of a rule's check: `None` when it raises. Only the landmark checks can. */
  function Holds(c: Condition, landmarks: seq<Landmark>, context: Context, lean: LeanAngle): (r: Option<bool>)
    ensures r.None? ==> c in {KneeValgus, ForwardLean}
  {
    match c
    case KneeValgus => KneeValgusCheck(landmarks)
    case ForwardLean => ForwardLeanCheck(landmarks, lean)
    case LeftRightAsymmetry => Some(AsymmetryCheck(context))
    case PoorDepth => Some(PoorDepthCheck(context))
    case TooFast => Some(TooFastCheck(context))
  }

  predicate Fires(rule: FeedbackRule, landmarks: seq<Landmark>, context: Context, lean: LeanAngle) {
    Holds(rule.condition, landmarks, context, lean) == Some(true)
  }

  /** The rules that trigger on a frame, in rule order. */
  function Firing(rules: seq<FeedbackRule>, landmarks: seq<Landmark>, context: Context, lean: LeanAngle): seq<FeedbackRule> {
    if rules == [] then []
    else
      var last := rules[|rules| - 1];
      Firing(rules[..|rules| - 1], landmarks, context, lean) + (if Fires(last, landmarks, context, lean) then [last] else [])
  }

  function Messages(rules: seq<FeedbackRule>): (m: seq<string>)
    ensures |m| == |rules| && forall i :: 0 <= i < |rules| ==> m[i] == rules[i].message
  {
    seq(|rules|, i requires 0 <= i < |rules| => rules[i].message)
  }

  predicate SortedByPriority(s: seq<FeedbackRule>) {
    forall i, j :: 0 <= i < j < |s| ==> s[i].priority <= s[j].priority
  }

  /** The rules of priority `p`, in order. */
  function WithPriority(s: seq<FeedbackRule>, p: int): seq<FeedbackRule> {
    if s == [] then []
    else WithPriority(s[..|s| - 1], p) + (if s[|s| - 1].priority == p then [s[|s| - 1]] else [])
  }

  /** Inserts `r` after every rule of priority at most its own. */
  function Insert(s: seq<FeedbackRule>, r: FeedbackRule): (t: seq<FeedbackRule>)
    ensures multiset(t) == multiset(s) + multiset{r}
  {
    if s == [] then [r]
    else if s[|s| - 1].priority <= r.priority then s + [r]
    else
      var init, last := s[..|s| - 1], s[|s| - 1];
      assert s == init + [last];
      Insert(init, r) + [last]
  }

  /** Appending a rule no more urgent than any already present keeps the order sorted. */
  lemma SortedSnoc(u: seq<FeedbackRule>, last: FeedbackRule)
    requires SortedByPriority(u)
    requires forall x :: x in u ==> x.priority <= last.priority
    ensures SortedByPriority(u + [last])
  {
    var t := u + [last];
    forall i, j | 0 <= i < j < |t|
      ensures t[i].priority <= t[j].priority
    {
      if j == |u| {
        assert t[i] in u;
      } else {
        assert t[i] == u[i] && t[j] == u[j];
      }
    }
  }

  lemma {:induction false} InsertSorted(s: seq<FeedbackRule>, r: FeedbackRule)
    requires SortedByPriority(s)
    ensures SortedByPriority(Insert(s, r))
  {
    if s == [] {
    } else if s[|s| - 1].priority <= r.priority {
      forall x | x in s
        ensures x.priority <= r.priority
      {
        var k :| 0 <= k < |s| && s[k] == x;
        assert k == |s| - 1 || s[k].priority <= s[|s| - 1].priority;
      }
      SortedSnoc(s, r);
    } else {
      var init, last := s[..|s| - 1], s[|s| - 1];
      assert SortedByPriority(init);
      InsertSorted(init, r);
      var u := Insert(init, r);
      forall x | x in u
        ensures x.priority <= last.priority
      {
        assert x in multiset(u);
        assert x in multiset(init) + multiset{r};
        if x != r {
          assert x in init;
          var k :| 0 <= k < |init| && init[k] == x;
          assert s[k] == x;
        }
      }
      SortedSnoc(u, last);
    }
  }

  /** A stable sort by priority, as `list.sort(key=priority)` performs. */
  function SortByPriority(s: seq<FeedbackRule>): (t: seq<FeedbackRule>)
    ensures SortedByPriority(t)
    ensures multiset(t) == multiset(s)
  {
    if s == [] then []
    else
      assert s == s[..|s| - 1] + [s[|s| - 1]];
      InsertSorted(SortByPriority(s[..|s| - 1]), s[|s| - 1]);
      Insert(SortByPriority(s[..|s| - 1]), s[|s| - 1])
  }

  /** The engine's rule list, kept sorted by priority. */
  class FeedbackEngine {
    var rules: seq<FeedbackRule>

    predicate Valid()
      reads this
    {
      SortedByPriority(rules)
    }

    constructor ()
      ensures rules == [] && Valid()
    {
      rules := [];
    }

    method AddRule(rule: FeedbackRule)
      modifies this
      ensures rules == SortByPriority(old(rules) + [rule])
      ensures Valid() && multiset(rules) == multiset(old(rules)) + multiset{rule}
    {
      rules := SortByPriority(rules + [rule]);
    }

    /** The messages of the triggered rules, in rule (priority) order; a rule whose check
        raises contributes nothing. */
    method Evaluate(landmarks: seq<Landmark>, context: Context, lean: LeanAngle) returns (triggered: seq<string>)
      ensures triggered == Messages(Firing(rules, landmarks, context, lean))
    {
      triggered := [];
      var i := 0;
      while i < |rules|
        invariant 0 <= i <= |rules|
        invariant triggered == Messages(Firing(rules[..i], landmarks, context, lean))
      {
        assert rules[..i + 1][..i] == rules[..i];
        var outcome := Holds(rules[i].condition, landmarks, context, lean);
        if outcome == Some(true) {
          triggered := triggered + [rules[i].message];
        }
        i := i + 1;
      }
      assert rules[..|rules|] == rules;
    }
  }

  const CommonRules: seq<FeedbackRule> := [
    FeedbackRule("knee_valgus", KneeValgus, "Keep knees aligned with toes", 1),
    FeedbackRule("forward_lean", ForwardLean, "Keep chest upright", 2),
    FeedbackRule("asymmetry", LeftRightAsymmetry, "Distribute weight evenly", 3),
    FeedbackRule("poor_depth", PoorDepth, "Try to go deeper for full range", 4),
    FeedbackRule("too_fast", TooFast, "Slow down for controlled tempo", 5)
  ]

  /** An engine loaded with the five common rules, which end up in their listed order. */
  method CreateDefaultFeedbackEngine() returns (engine: FeedbackEngine)
    ensures fresh(engine)
    ensures engine.rules == CommonRules && engine.Valid()
  {
    engine := new FeedbackEngine();
    var i := 0;
    while i < |CommonRules|
      invariant 0 <= i <= |CommonRules|
      invariant engine.rules == CommonRules[..i]
      modifies engine
    {
      assert CommonRules[..i] + [CommonRules[i]] == CommonRules[..i + 1];
      SortedIsFixed(CommonRules[..i + 1]);
      engine.AddRule(CommonRules[i]);
      i := i + 1;
    }
    assert CommonRules[..|CommonRules|] == CommonRules;
  }

  // ---------------------------------------------------------------------------------------
  // Properties

  lemma {:induction false} FiringAppend(a: seq<FeedbackRule>, b: seq<FeedbackRule>, landmarks: seq<Landmark>,
                                        context: Context, lean: LeanAngle)
    ensures Firing(a + b, landmarks, context, lean) == Firing(a, landmarks, context, lean) + Firing(b, landmarks, context, lean)
  {
    if b != [] {
      var init := b[..|b| - 1];
      assert (a + b)[..|a + b| - 1] == a + init;
      FiringAppend(a, init, landmarks, context, lean);
    } else {
      assert a + b == a;
    }
  }

  /** A rule's message is reported exactly when that rule's check returns true. */
  lemma {:induction false} FiringMembers(rules: seq<FeedbackRule>, landmarks: seq<Landmark>, context: Context,
                                         lean: LeanAngle, r: FeedbackRule)
    ensures r in Firing(rules, landmarks, context, lean) <==> r in rules && Fires(r, landmarks, context, lean)
  {
    if rules != [] {
      var init := rules[..|rules| - 1];
      assert rules == init + [rules[|rules| - 1]];
      FiringMembers(init, landmarks, context, lean, r);
    }
  }

  /** At most one message per rule, and the output keeps the rules' priority order. */
  lemma {:induction false} FiringSorted(rules: seq<FeedbackRule>, landmarks: seq<Landmark>, context: Context,
                                        lean: LeanAngle)
    requires SortedByPriority(rules)
    ensures |Firing(rules, landmarks, context, lean)| <= |rules|
    ensures SortedByPriority(Firing(rules, landmarks, context, lean))
  {
    if rules != [] {
      var init, last := rules[..|rules| - 1], rules[|rules| - 1];
      FiringSorted(init, landmarks, context, lean);
      forall x | x in Firing(init, landmarks, context, lean)
        ensures x.priority <= last.priority
      {
        FiringMembers(init, landmarks, context, lean, x);
      }
    }
  }

  lemma {:induction false} WithPriorityAppend(a: seq<FeedbackRule>, b: seq<FeedbackRule>, p: int)
    ensures WithPriority(a + b, p) == WithPriority(a, p) + WithPriority(b, p)
  {
    if b != [] {
      var init := b[..|b| - 1];
      assert (a + b)[..|a + b| - 1] == a + init;
      WithPriorityAppend(a, init, p);
    } else {
      assert a + b == a;
    }
  }

  /** A rule more urgent than the last one is inserted before it. */
  lemma InsertBefore(s: seq<FeedbackRule>, r: FeedbackRule)
    requires s != [] && r.priority < s[|s| - 1].priority
    ensures s == s[..|s| - 1] + [s[|s| - 1]]
    ensures Insert(s, r) == Insert(s[..|s| - 1], r) + [s[|s| - 1]]
  {
  }

  lemma {:induction false} InsertStable(s: seq<FeedbackRule>, r: FeedbackRule, p: int)
    ensures WithPriority(Insert(s, r), p) == WithPriority(s, p) + WithPriority([r], p)
  {
    if s == [] || s[|s| - 1].priority <= r.priority {
      InsertAtEnd(s, r);
      WithPriorityAppend(s, [r], p);
    } else {
      var init, last := s[..|s| - 1], s[|s| - 1];
      InsertBefore(s, r);
      InsertStable(init, r, p);
      StableStep(init, Insert(init, r), last, r, p);
    }
  }

  /** The inductive step of `InsertStable`: `u` is `init` with `r` inserted, and `last` is
      less urgent than `r`. */
  lemma StableStep(init: seq<FeedbackRule>, u: seq<FeedbackRule>, last: FeedbackRule, r: FeedbackRule, p: int)
    requires r.priority < last.priority
    requires WithPriority(u, p) == WithPriority(init, p) + WithPriority([r], p)
    ensures WithPriority(u + [last], p) == WithPriority(init + [last], p) + WithPriority([r], p)
  {
    WithPriorityAppend(u, [last], p);
    WithPriorityAppend(init, [last], p);
    WithPrioritySingleton(r, p);
    WithPrioritySingleton(last, p);
    // `last` is strictly less urgent than `r`, so at most one of them has priority `p`.
    var a, wr, wl := WithPriority(init, p), WithPriority([r], p), WithPriority([last], p);
    assert wr == [] || wl == [];
    assert (a + wr) + wl == (a + wl) + wr;
  }

  lemma WithPrioritySingleton(x: FeedbackRule, p: int)
    ensures WithPriority([x], p) == if x.priority == p then [x] else []
  {
    assert [x][..0] == [];
  }

  /** Sorting is stable: rules of equal priority keep the order in which they were added. */
  lemma {:induction false} SortStable(s: seq<FeedbackRule>, p: int)
    ensures WithPriority(SortByPriority(s), p) == WithPriority(s, p)
  {
    if s != [] {
      var init, last := s[..|s| - 1], s[|s| - 1];
      assert s == init + [last];
      var sorted := SortByPriority(init);
      assert SortByPriority(s) == Insert(sorted, last);
      SortStable(init, p);
      InsertStable(sorted, last, p);
      WithPriorityAppend(init, [last], p);
    }
  }

  /** The prefix of a sorted list is sorted, and its last rule is no less urgent than the
      list's last. */
  lemma SortedPrefix(s: seq<FeedbackRule>)
    requires SortedByPriority(s) && s != []
    ensures SortedByPriority(s[..|s| - 1])
    ensures s == s[..|s| - 1] + [s[|s| - 1]]
    ensures s[..|s| - 1] == [] || s[..|s| - 1][|s| - 2].priority <= s[|s| - 1].priority
  {
    var init := s[..|s| - 1];
    assert |s| >= 2 ==> init[|s| - 2] == s[|s| - 2];
    forall i, j | 0 <= i < j < |init|
      ensures init[i].priority <= init[j].priority
    {
      assert init[i] == s[i] && init[j] == s[j];
    }
  }

  /** A rule no more urgent than the last one is appended. */
  lemma InsertAtEnd(s: seq<FeedbackRule>, r: FeedbackRule)
    requires s == [] || s[|s| - 1].priority <= r.priority
    ensures Insert(s, r) == s + [r]
  {
  }

  /** The inductive step of `SortedIsFixed`. */
  lemma FixedStep(init: seq<FeedbackRule>, last: FeedbackRule)
    requires SortByPriority(init) == init
    requires init == [] || init[|init| - 1].priority <= last.priority
    ensures SortByPriority(init + [last]) == init + [last]
  {
    var s := init + [last];
    assert s[..|s| - 1] == init && s[|s| - 1] == last;
    InsertAtEnd(init, last);
  }

  /** Sorting a list already in priority order changes nothing. */
  lemma {:induction false} SortedIsFixed(s: seq<FeedbackRule>)
    requires SortedByPriority(s)
    ensures SortByPriority(s) == s
  {
    if s != [] {
      var init, last := s[..|s| - 1], s[|s| - 1];
      SortedPrefix(s);
      SortedIsFixed(init);
      FixedStep(init, last);
    }
  }

  /** With too few landmarks for the two landmark checks, they are skipped and the context
      checks still report: asymmetry 20 and a 1 s rep give those two messages, in order. */
  lemma EvaluationSkipsFaultingRules()
    ensures Messages(Firing(CommonRules, [], map["asymmetry_value" := 20.0, "rep_time" := 1.0], (dx, dy) => 0.0))
            == ["Distribute weight evenly", "Slow down for controlled tempo"]
  {
    var ctx := map["asymmetry_value" := 20.0, "rep_time" := 1.0];
    var lean: LeanAngle := (dx, dy) => 0.0;
    var cr := CommonRules;
    assert cr[..4][..3] == cr[..3] && cr[..3][..2] == cr[..2] && cr[..2][..1] == cr[..1] && cr[..1][..0] == [];
    assert Firing(cr[..1], [], ctx, lean) == [];
    assert Firing(cr[..2], [], ctx, lean) == [];
    assert Firing(cr[..3], [], ctx, lean) == [cr[2]];
    assert Firing(cr[..4], [], ctx, lean) == [cr[2]];
    assert Firing(cr, [], ctx, lean) == [cr[2], cr[4]];
  }
}
