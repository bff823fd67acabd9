/**
 * The footer's newsletter sign-up: the email pattern checked before any
 * request, and how the handler treats success, a 409 response and any other
 * failure.
 */
module Newsletter {
  import opened Wrappers
  import opened Remote

  const InvalidEmailText := "Please enter a valid email address"
  const AlreadySubscribedText := "This email is already subscribed"
  const SubscribedToast := "Successfully subscribed to our newsletter!"
  const SubscribeFailedToast := "Failed to subscribe. Please try again later."

  /** `\s` of a JavaScript regular expression: the ECMAScript white-space and line-terminator code points. */
  predicate IsJsWhitespace(c: char) {
    var n := c as int;
    || 9 <= n <= 13 || n == 0x20 || n == 0xA0 || n == 0x1680
    || 0x2000 <= n <= 0x200A || n == 0x2028 || n == 0x2029
    || n == 0x202F || n == 0x205F || n == 0x3000 || n == 0xFEFF
  }

  /** The class `[^\s@]`. */
  predicate Plain(c: char) {
    !IsJsWhitespace(c) && c != '@'
  }

  predicate AllPlain(s: string) {
    forall k :: 0 <= k < |s| ==> Plain(s[k])
  }

  /**
   * The regular expression `^[^\s@]+@[^\s@]+\.[^\s@]+$`: some '@' at `i` and
   * some '.' at `j` split the text into three non-empty runs of `[^\s@]`.
   */
  predicate MatchesEmailPattern(s: string) {
    exists i, j | 0 < i && i + 1 < j && j + 1 < |s| ::
      && s[i] == '@' && s[j] == '.'
      && AllPlain(s[..i]) && AllPlain(s[i + 1..j]) && AllPlain(s[j + 1..])
  }

  /** The index of the first `c` in `s`, or `|s|` when there is none. */
  function IndexOf(s: string, c: char): (r: nat)
    ensures r <= |s|
    ensures r < |s| ==> s[r] == c
    ensures forall k :: 0 <= k < r ==> s[k] != c
  {
    if s == [] then 0
    else if s[0] == c then 0
    else 1 + IndexOf(s[1..], c)
  }

  /**
   * The same pattern said plainly: no white space anywhere, exactly one '@',
   * not in first place, and a '.' after it that is neither right after the
   * '@' nor the last character.
   */
  predicate EmailShape(s: string) {
    var i := IndexOf(s, '@');
    && (forall k :: 0 <= k < |s| ==> !IsJsWhitespace(s[k]))
    && 0 < i && i + 3 < |s|
    && (forall k :: i < k < |s| ==> s[k] != '@')
    && '.' in s[i + 2..|s| - 1]
  }

  lemma PatternGivesShape(s: string, i: int, j: int)
    requires 0 < i && i + 1 < j && j + 1 < |s|
    requires s[i] == '@' && s[j] == '.'
    requires AllPlain(s[..i]) && AllPlain(s[i + 1..j]) && AllPlain(s[j + 1..])
    ensures EmailShape(s)
  {
    forall k | 0 <= k < |s| && k != i && k != j
      ensures Plain(s[k])
    {
      if k < i {
        assert s[k] == s[..i][k];
      } else if k < j {
        assert s[k] == s[i + 1..j][k - i - 1];
      } else {
        assert s[k] == s[j + 1..][k - j - 1];
      }
    }
    var at := IndexOf(s, '@');
    assert at == i;
    assert s[i + 2..|s| - 1][j - i - 2] == '.';
  }

  lemma ShapeGivesPattern(s: string)
    requires EmailShape(s)
    ensures MatchesEmailPattern(s)
  {
    var i := IndexOf(s, '@');
    var rest := s[i + 2..|s| - 1];
    var t := IndexOf(rest, '.');
    var j := i + 2 + t;
    assert s[j] == rest[t] == '.';
    var local, domain, top := s[..i], s[i + 1..j], s[j + 1..];
    forall k | 0 <= k < |local| ensures Plain(local[k]) {
      assert local[k] == s[k];
    }
    forall k | 0 <= k < |domain| ensures Plain(domain[k]) {
      assert domain[k] == s[i + 1 + k];
    }
    forall k | 0 <= k < |top| ensures Plain(top[k]) {
      assert top[k] == s[j + 1 + k];
    }
  }

  /** The newsletter pattern accepts exactly the texts of EmailShape. */
  lemma PatternIffShape(s: string)
    ensures MatchesEmailPattern(s) <==> EmailShape(s)
  {
    if MatchesEmailPattern(s) {
      var i, j :| 0 < i && i + 1 < j && j + 1 < |s|
        && s[i] == '@' && s[j] == '.'
        && AllPlain(s[..i]) && AllPlain(s[i + 1..j]) && AllPlain(s[j + 1..]);
      PatternGivesShape(s, i, j);
    }
    if EmailShape(s) {
      ShapeGivesPattern(s);
    }
  }

  /** The handler's gate, `!newsletterEmail || !emailRegex.test(newsletterEmail)`, negated. */
  predicate PassesGate(email: string) {
    email != "" && MatchesEmailPattern(email)
  }

  /** The empty-string test of the gate is implied by the pattern: at least five characters are needed. */
  lemma GateIsPattern(email: string)
    ensures PassesGate(email) <==> MatchesEmailPattern(email)
    ensures MatchesEmailPattern(email) ==> |email| >= 5
  {
    PatternIffShape(email);
  }

  /** The newsletter sign-up's state: the email typed, the inline error and whether a request is in flight. */
  class NewsletterController {
    var email: string
    var error: string
    var isSubmitting: bool

    constructor ()
      ensures email == "" && error == "" && !isSubmitting
    {
      email := "";
      error := "";
      isSubmitting := false;
    }

    /** The input's onChange: the text is stored and the inline error cleared. The input is disabled while submitting. */
    method TypeEmail(value: string)
      requires !isSubmitting
      modifies this
      ensures email == value && error == "" && !isSubmitting
    {
      email := value;
      error := "";
    }

    /**
     * handleNewsletterSubmit up to the network call: an email failing the
     * gate sets the inline error and sends nothing; otherwise the request
     * for that email is made and the form is marked as submitting.
     */
    method BeginSubscribe() returns (request: Option<string>)
      requires !isSubmitting
      modifies this
      ensures email == old(email)
      ensures !PassesGate(old(email)) ==> request.None? && error == InvalidEmailText && !isSubmitting
      ensures PassesGate(old(email)) ==> request == Some(old(email)) && error == "" && isSubmitting
    {
      error := "";
      if email == "" || !MatchesEmailPattern(email) {
        error := InvalidEmailText;
        request := None;
        return;
      }
      isSubmitting := true;
      request := Some(email);
    }

    /**
     * The rest of the handler once the call settles: success shows a toast
     * and clears the email; a 409 sets the inline "already subscribed"
     * error; any other failure shows an error toast and leaves the inline
     * error as it was. The form is no longer submitting.
     */
    method FinishSubscribe(outcome: CallOutcome) returns (toast: Option<Toast>)
      requires isSubmitting
      modifies this
      ensures !isSubmitting
      ensures outcome.Succeeded? ==> toast == Some(SuccessToast(SubscribedToast)) && email == "" && error == old(error)
      ensures outcome.Failed? && outcome.status == Some(409) ==>
                toast.None? && error == AlreadySubscribedText && email == old(email)
      ensures outcome.Failed? && outcome.status != Some(409) ==>
                toast == Some(ErrorToast(SubscribeFailedToast)) && error == old(error) && email == old(email)
    {
      match outcome {
        case Succeeded =>
          toast := Some(SuccessToast(SubscribedToast));
          email := "";
        case Failed(status, _) =>
          if status == Some(409) {
            error := AlreadySubscribedText;
            toast := None;
          } else {
            toast := Some(ErrorToast(SubscribeFailedToast));
          }
      }
      isSubmitting := false;
    }
  }

  /**
   * One round of typing and submitting: a rejected email never reaches the
   * network and shows the invalid-email error; an accepted one is sent
   * unchanged, and then a 409 shows the already-subscribed error while any
   * other outcome leaves the inline error empty.
   */
  method SubscribeRound(typed: string, outcome: CallOutcome) returns (request: Option<string>, toast: Option<Toast>, error: string)
    ensures !PassesGate(typed) ==> request.None? && toast.None? && error == InvalidEmailText
    ensures PassesGate(typed) ==> request == Some(typed)
    ensures PassesGate(typed) && outcome.Failed? && outcome.status == Some(409) ==> toast.None? && error == AlreadySubscribedText
    ensures PassesGate(typed) && outcome.Failed? && outcome.status != Some(409) ==> toast == Some(ErrorToast(SubscribeFailedToast)) && error == ""
    ensures PassesGate(typed) && outcome.Succeeded? ==> toast == Some(SuccessToast(SubscribedToast)) && error == ""
  {
    var n := new NewsletterController();
    n.TypeEmail(typed);
    request := n.BeginSubscribe();
    toast := None;
    if request.Some? {
      toast := n.FinishSubscribe(outcome);
    }
    error := n.error;
  }
}
