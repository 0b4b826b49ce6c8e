/**
 * Username policy and the username field's presentation state machine.
 *
 * The DOM is replaced by the fields of `UsernameField`: the input's value
 * and class list, the feedback element's text and class list, the submit
 * button's `disabled` flag, the acknowledgements shown with `alert`, and
 * the number of deferred reset steps queued with `setTimeout(…, 0)`.
 */
module Username {
  import opened JsText

  predicate IsAsciiUpper(c: char) { 'A' <= c <= 'Z' }
  predicate IsAsciiLower(c: char) { 'a' <= c <= 'z' }
  predicate IsAsciiDigit(c: char) { '0' <= c <= '9' }

  /** `[^A-Za-z0-9]`: spaces, punctuation and every non-ASCII character count as special. */
  predicate IsSpecial(c: char) { !IsAsciiUpper(c) && !IsAsciiLower(c) && !IsAsciiDigit(c) }

  predicate HasUpper(s: string) { exists i :: 0 <= i < |s| && IsAsciiUpper(s[i]) }
  predicate HasLower(s: string) { exists i :: 0 <= i < |s| && IsAsciiLower(s[i]) }
  predicate HasSpecial(s: string) { exists i :: 0 <= i < |s| && IsSpecial(s[i]) }

  const MinLength: nat := 8

  /** The four rules, in the order they are checked. */
  datatype Rule = Length | Uppercase | Lowercase | Special

  const RuleOrder: seq<Rule> := [Length, Uppercase, Lowercase, Special]

  /** The message shown for a violated rule. */
  function Message(rule: Rule): string {
    match rule
    case Length => "Minimum 8 characters"
    case Uppercase => "Must contain at least one uppercase letter"
    case Lowercase => "Must contain at least one lowercase letter"
    case Special => "Must contain at least one special character"
  }

  /** Whether `v` breaks `rule`, each rule judged on its own. The length is JavaScript's. */
  predicate Violates(rule: Rule, v: string) {
    match rule
    case Length => Utf16Length(v) < MinLength
    case Uppercase => !HasUpper(v)
    case Lowercase => !HasLower(v)
    case Special => !HasSpecial(v)
  }

  /** `{ok: true}` or `{ok: false, reason}`; the reason is `Message(rule)`. */
  datatype Verdict = Accepted | Rejected(rule: Rule)

  /** `validateUsername`: fail-fast, reporting only the first rule broken. */
  function ValidateUsername(v: string): (r: Verdict)
    ensures r.Accepted? <==>
      Utf16Length(v) >= MinLength && HasUpper(v) && HasLower(v) && HasSpecial(v)
    ensures Utf16Length(v) < MinLength ==> r == Rejected(Length)
  {
    if v == [] || Utf16Length(v) < MinLength then Rejected(Length)
    else if !HasUpper(v) then Rejected(Uppercase)
    else if !HasLower(v) then Rejected(Lowercase)
    else if !HasSpecial(v) then Rejected(Special)
    else Accepted
  }

  /**
   * The verdict names rule `k` of the order exactly when `v` breaks it and
   * keeps every rule before it; it accepts exactly when no rule is broken.
   */
  lemma FirstViolatedRule(v: string, k: nat)
    requires k < |RuleOrder|
    ensures ValidateUsername(v) == Rejected(RuleOrder[k]) <==>
      Violates(RuleOrder[k], v) && forall j :: 0 <= j < k ==> !Violates(RuleOrder[j], v)
    ensures ValidateUsername(v).Accepted? <==>
      forall j :: 0 <= j < |RuleOrder| ==> !Violates(RuleOrder[j], v)
  {
    assert RuleOrder[0] == Length && RuleOrder[1] == Uppercase;
    assert RuleOrder[2] == Lowercase && RuleOrder[3] == Special;
    var ok := forall j :: 0 <= j < |RuleOrder| ==> !Violates(RuleOrder[j], v);
    if ok {
      assert !Violates(RuleOrder[0], v) && !Violates(RuleOrder[1], v);
      assert !Violates(RuleOrder[2], v) && !Violates(RuleOrder[3], v);
    }
  }

  /** The cases the page's own tests exercise. */
  lemma TestedCases()
    ensures ValidateUsername("Valid_user1!") == Accepted
    ensures ValidateUsername("valid_user1!") == Rejected(Uppercase)
    ensures ValidateUsername("Abc123") == Rejected(Length)
    ensures ValidateUsername("") == Rejected(Length)
  {
    var good := "Valid_user1!";
    Utf16LengthBmp(good);
    assert IsAsciiUpper(good[0]) && IsAsciiLower(good[1]) && IsSpecial(good[5]);
    var noUpper := "valid_user1!";
    Utf16LengthBmp(noUpper);
    assert !HasUpper(noUpper) by {
      forall i | 0 <= i < |noUpper| ensures !IsAsciiUpper(noUpper[i]) {}
    }
    Utf16LengthBmp("Abc123");
  }

  const ValidityClasses: set<string> := {"username-valid", "username-invalid", "is-valid", "is-invalid"}
  const ValidMarks: set<string> := {"username-valid", "is-valid"}
  const InvalidMarks: set<string> := {"username-invalid", "is-invalid"}

  const LooksGood: string := "Username looks good."
  const AcceptedAlert: string := "Username accepted."

  /** The tri-state the field presents. */
  datatype Presentation = Empty | Valid | Invalid

  /** The presentation the field should show for a value. */
  function Expected(v: string): (p: Presentation)
    ensures p == Valid <==> ValidateUsername(v).Accepted?
    ensures p == Empty <==> v == []
  {
    if ValidateUsername(v).Accepted? then Valid else if v == [] then Empty else Invalid
  }

  class UsernameField {
    var value: string
    const defaultValue: string
    var classes: set<string>
    var feedback: string
    var feedbackClasses: set<string>
    var submitDisabled: bool
    var alerts: seq<string>
    var pendingResets: nat

    /** The presentation read off the field's validity classes. */
    ghost function Shown(): Presentation
      reads this
    {
      if classes * ValidityClasses == ValidMarks then Valid
      else if classes * ValidityClasses == InvalidMarks then Invalid
      else Empty
    }

    /** The classes, the feedback text and the button agree on one of the three states. */
    ghost predicate Consistent()
      reads this
    {
      (classes * ValidityClasses == {} && feedback == "" && submitDisabled)
      || (classes * ValidityClasses == ValidMarks && feedback == LooksGood && !submitDisabled)
      || (classes * ValidityClasses == InvalidMarks && submitDisabled
          && exists rule :: feedback == Message(rule))
    }

    /**
     * The page as loaded: the markup decides the initial value, the input's
     * and the feedback element's classes, and the button state.
     */
    constructor (initialValue: string, initialClasses: set<string>, initialFeedbackClasses: set<string>,
                 initialDisabled: bool)
      ensures value == initialValue && defaultValue == initialValue
      ensures classes == initialClasses && feedback == "" && feedbackClasses == initialFeedbackClasses
      ensures submitDisabled == initialDisabled && alerts == [] && pendingResets == 0
      ensures initialClasses * ValidityClasses == {} && initialDisabled ==> Consistent() && Shown() == Empty
    {
      value, defaultValue := initialValue, initialValue;
      classes, feedback, feedbackClasses := initialClasses, "", initialFeedbackClasses;
      submitDisabled, alerts, pendingResets := initialDisabled, [], 0;
    }

    /** `applyState(result, val)`. */
    method ApplyState(result: Verdict, val: string)
      modifies this`classes, this`feedback, this`feedbackClasses, this`submitDisabled
      ensures classes == (old(classes) - ValidityClasses)
        + (if result.Accepted? then ValidMarks else if val == [] then {} else InvalidMarks)
      ensures feedback
        == if result.Accepted? then LooksGood else if val == [] then "" else Message(result.rule)
      ensures feedbackClasses
        == if result.Accepted? then old(feedbackClasses) - {"text-danger"} + {"text-success"}
           else if val == [] then old(feedbackClasses)
           else old(feedbackClasses) - {"text-success"} + {"text-danger"}
      ensures submitDisabled == !result.Accepted?
      ensures Consistent()
    {
      classes := classes - ValidityClasses;
      if result.Accepted? {
        classes := classes + ValidMarks;
        feedback := LooksGood;
        feedbackClasses := feedbackClasses - {"text-danger"} + {"text-success"};
        submitDisabled := false;
      } else {
        if val == [] {
          feedback := "";
          submitDisabled := true;
        } else {
          classes := classes + InvalidMarks;
          feedback := Message(result.rule);
          feedbackClasses := feedbackClasses - {"text-success"} + {"text-danger"};
          submitDisabled := true;
        }
      }
    }

    /** The user edits the field to `newValue`; the `input` listener validates and presents it. */
    method OnInput(newValue: string)
      modifies this`value, this`classes, this`feedback, this`feedbackClasses, this`submitDisabled
      ensures value == newValue
      ensures Consistent() && Shown() == Expected(newValue)
      ensures submitDisabled <==> !ValidateUsername(newValue).Accepted?
      ensures feedback == match Expected(newValue)
        case Valid => LooksGood
        case Empty => ""
        case Invalid => Message(ValidateUsername(newValue).rule)
      ensures classes == (old(classes) - ValidityClasses) + match Expected(newValue)
        case Valid => ValidMarks
        case Empty => {}
        case Invalid => InvalidMarks
      ensures feedbackClasses == match Expected(newValue)
        case Valid => old(feedbackClasses) - {"text-danger"} + {"text-success"}
        case Empty => old(feedbackClasses)
        case Invalid => old(feedbackClasses) - {"text-success"} + {"text-danger"}
    {
      value := newValue;
      var val := value;
      ApplyState(ValidateUsername(val), val);
    }

    /** The form's `submit` listener: the default submission is always cancelled. */
    method OnSubmit() returns (defaultPrevented: bool)
      modifies this`alerts
      ensures defaultPrevented
      ensures alerts == old(alerts) + (if ValidateUsername(value).Accepted? then [AcceptedAlert] else [])
    {
      defaultPrevented := true;
      if ValidateUsername(value).Accepted? {
        alerts := alerts + [AcceptedAlert];
      }
    }

    /**
     * A form reset: the `reset` listener queues its deferred step, then the
     * browser restores the input's default value.
     */
    method OnReset()
      modifies this`value, this`pendingResets
      ensures value == defaultValue && pendingResets == old(pendingResets) + 1
    {
      pendingResets := pendingResets + 1;
      value := defaultValue;
    }

    /** The deferred step of a reset: back to the empty presentation, whatever came before. */
    method RunDeferredReset()
      requires pendingResets > 0
      modifies this`classes, this`feedback, this`submitDisabled, this`pendingResets
      ensures classes == old(classes) - ValidityClasses
      ensures feedback == "" && submitDisabled
      ensures pendingResets == old(pendingResets) - 1
      ensures Consistent() && Shown() == Empty
    {
      classes := classes - ValidityClasses;
      feedback := "";
      submitDisabled := true;
      pendingResets := pendingResets - 1;
    }
  }
}
