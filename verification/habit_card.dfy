/** The habit card's decisions: which icon to draw, the priority dot's colour, and feedback on taps. */
module HabitCard {
  import opened Wrappers
  import opened GlobalState
  import Theme

  const DEFAULT_ICON: string := "star"
  const OUTLINE: string := "-outline"

  /** `s.includes(sub)`: `sub` occurs somewhere in `s`. */
  predicate Contains(s: string, sub: string) {
    (|sub| <= |s| && s[..|sub|] == sub) || (s != [] && Contains(s[1..], sub))
  }

  /** `iconName || 'star'`: null, undefined (both `None`) and the empty string fall back to a star. */
  function BaseIconName(iconName: Option<string>): (name: string)
    ensures name != ""
    ensures iconName.Some? && iconName.value != "" ==> name == iconName.value
  {
    if iconName.Some? && iconName.value != "" then iconName.value else DEFAULT_ICON
  }

  /** The outline variant of an icon name: kept if it already mentions `-outline`, suffixed otherwise. */
  function OutlineIconName(name: string): (r: string)
    ensures Contains(r, OUTLINE)
    ensures r == name <==> Contains(name, OUTLINE)
    ensures !Contains(name, OUTLINE) ==> r == name + OUTLINE
  {
    if Contains(name, OUTLINE) then name
    else
      SuffixIsContained(name, OUTLINE);
      name + OUTLINE
  }

  /** The name `renderIcon` hands to the icon set. */
  function RenderIconName(iconName: Option<string>): (r: string)
    ensures Contains(r, OUTLINE)
    ensures iconName.Some? && Contains(iconName.value, OUTLINE) ==> r == iconName.value
    ensures iconName.Some? && iconName.value != "" && !Contains(iconName.value, OUTLINE) ==> r == iconName.value + OUTLINE
  {
    OutlineIconName(BaseIconName(iconName))
  }

  lemma {:induction false} SuffixIsContained(s: string, sub: string)
    ensures Contains(s + sub, sub)
  {
    if s != [] {
      assert (s + sub)[1..] == s[1..] + sub;
      SuffixIsContained(s[1..], sub);
    } else {
      assert (s + sub)[..|sub|] == sub;
    }
  }

  /** Applying the outline rule to its own result changes nothing. */
  lemma OutlineIsIdempotent(name: string)
    ensures OutlineIconName(OutlineIconName(name)) == OutlineIconName(name)
  {
  }

  /** A missing or empty icon name is drawn as `star-outline`. */
  lemma MissingIconIsStarOutline(iconName: Option<string>)
    requires iconName.None? || iconName.value == ""
    ensures RenderIconName(iconName) == "star-outline"
  {
    assert !Contains("star", OUTLINE) by {
      assert !Contains("tar", OUTLINE);
      assert !Contains("ar", OUTLINE);
      assert !Contains("r", OUTLINE);
      assert !Contains("", OUTLINE);
    }
  }

  predicate IsHexDigit(c: char) {
    '0' <= c <= '9' || 'a' <= c <= 'f'
  }

  /** `PRIORITY_COLORS[habit.priority]`: a `#rrggbb` colour. */
  function PriorityColor(p: Priority): (c: string)
    ensures |c| == 7 && c[0] == '#'
    ensures forall i :: 1 <= i < 7 ==> IsHexDigit(c[i])
  {
    match p
    case High => "#ef4444"
    case Medium => "#f59e0b"
    case Low => "#10b981"
  }

  /**
   * The dot colours are the light palette's status colours: high priority is `danger`,
   * medium is `warning`, low is `success`.
   */
  lemma PriorityColorsAreStatusColors()
    ensures PriorityColor(High) == Theme.LightTheme.danger
    ensures PriorityColor(Medium) == Theme.LightTheme.warning
    ensures PriorityColor(Low) == Theme.LightTheme.success
  {
  }

  /** Each priority gets a dot colour of its own. */
  lemma PriorityColorsDistinct(p: Priority, q: Priority)
    ensures PriorityColor(p) == PriorityColor(q) <==> p == q
  {
  }

  datatype Haptic = LightImpact | MediumImpact | HeavyImpact | SuccessNotice | WarningNotice | ErrorNotice | Selection

  /** What a tap on the card causes, in order. */
  datatype Effect = Feedback(kind: Haptic) | ToggleCompleteCalled(habit: Habit) | PressCalled(habit: Habit)

  /**
   * The completion toggle: success feedback when completing, medium when un-completing, then
   * the parent's handler, once, with the same habit.
   */
  function HandleToggleComplete(habit: Habit): (effects: seq<Effect>)
    ensures |effects| == 2 && effects[0].Feedback? && effects[1] == ToggleCompleteCalled(habit)
    ensures effects[0].kind == SuccessNotice <==> !habit.completed
    ensures effects[0].kind == MediumImpact <==> habit.completed
  {
    [Feedback(if !habit.completed then SuccessNotice else MediumImpact), ToggleCompleteCalled(habit)]
  }

  /** Pressing the card: light feedback, then the parent's press handler with the habit. */
  function HandlePress(habit: Habit): seq<Effect> {
    [Feedback(LightImpact), PressCalled(habit)]
  }

  /** How many of `effects` are calls into the card's parent. */
  function HandlerCalls(effects: seq<Effect>): nat {
    if effects == [] then 0 else (if effects[0].Feedback? then 0 else 1) + HandlerCalls(effects[1..])
  }

  /** How many of `effects` are haptic feedback. */
  function Feedbacks(effects: seq<Effect>): nat {
    if effects == [] then 0 else (if effects[0].Feedback? then 1 else 0) + Feedbacks(effects[1..])
  }

  lemma FeedbackThenCall(f: Effect, call: Effect)
    requires f.Feedback? && !call.Feedback?
    ensures Feedbacks([f, call]) == 1 && HandlerCalls([f, call]) == 1
  {
    assert [call][1..] == [];
    assert Feedbacks([call]) == 0 && HandlerCalls([call]) == 1;
    assert [f, call][1..] == [call];
  }

  /**
   * Each tap gives exactly one haptic feedback and then exactly one call into the parent, with
   * the card's habit; a press on the card never reaches the completion handler and the
   * completion toggle never reaches the press handler.
   */
  lemma TapsGiveOneFeedbackThenOneCall(habit: Habit)
    ensures var t, p := HandleToggleComplete(habit), HandlePress(habit);
      && Feedbacks(t) == 1 && HandlerCalls(t) == 1 && t[0].Feedback? && t[|t| - 1] == ToggleCompleteCalled(habit)
      && Feedbacks(p) == 1 && HandlerCalls(p) == 1 && p[0] == Feedback(LightImpact) && p[|p| - 1] == PressCalled(habit)
      && (forall e :: e in p ==> !e.ToggleCompleteCalled?)
      && (forall e :: e in t ==> !e.PressCalled?)
  {
    var t, p := HandleToggleComplete(habit), HandlePress(habit);
    FeedbackThenCall(t[0], t[1]);
    assert t == [t[0], t[1]];
    FeedbackThenCall(p[0], p[1]);
    assert p == [p[0], p[1]];
  }
}
