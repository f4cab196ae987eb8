/**
 * The username form (src/components/UsernameInput.js): it trims what was
 * typed, checks it in a fixed order and either shows an error or hands the
 * trimmed name to its `onUsernameSubmit` callback.
 */
module UsernameInput {
  import opened JsString

  const MaxUsernameLength := 50

  const EmptyUsernameText := "Please enter a username"
  const LongUsernameText := "Username must be 50 characters or less"
  const CharsetText := "Username can only contain letters, numbers, spaces, hyphens, and underscores"

  /** One character of the class `[a-zA-Z0-9_\-\s]`. */
  predicate AllowedChar(c: char) {
    || ('a' <= c <= 'z') || ('A' <= c <= 'Z') || ('0' <= c <= '9')
    || c == '_' || c == '-' || IsJsWhitespace(c)
  }

  /** `/^[a-zA-Z0-9_\-\s]+$/.test(s)`. */
  predicate MatchesCharset(s: string) {
    |s| > 0 && forall i :: 0 <= i < |s| ==> AllowedChar(s[i])
  }

  /** What a submission leads to: a name for the callback, or the error text to show. */
  datatype Verdict = Accepted(name: string) | Rejected(message: string)

  /** The checks of `handleSubmit`, in their order: empty, then too long, then characters. */
  function ValidateUsername(raw: string): (v: Verdict)
    ensures v == Rejected(EmptyUsernameText) <==> AllWhitespace(raw)
    ensures v.Accepted? ==> v.name == Trim(raw)
    ensures v.Accepted? ==> 1 <= |v.name| <= MaxUsernameLength && NoEdgeWhitespace(v.name)
    ensures v.Accepted? ==> forall i :: 0 <= i < |v.name| ==> AllowedChar(v.name[i])
  {
    var t := Trim(raw);
    TrimEmptyIff(raw);
    if t == "" then Rejected(EmptyUsernameText)
    else if Utf16Length(t) > MaxUsernameLength then Rejected(LongUsernameText)
    else if !MatchesCharset(t) then Rejected(CharsetText)
    else Accepted(t)
  }

  /** The first failing check decides the message; a later check is reached only when the earlier ones pass. */
  lemma ValidateUsernameOrder(raw: string)
    ensures var t := Trim(raw);
      && (t == "" ==> ValidateUsername(raw) == Rejected(EmptyUsernameText))
      && (t != "" && Utf16Length(t) > MaxUsernameLength ==> ValidateUsername(raw) == Rejected(LongUsernameText))
      && (t != "" && Utf16Length(t) <= MaxUsernameLength && !MatchesCharset(t) ==> ValidateUsername(raw) == Rejected(CharsetText))
      && (ValidateUsername(raw).Accepted? <==> t != "" && Utf16Length(t) <= MaxUsernameLength && MatchesCharset(t))
  {
  }

  /**
   * Every character a valid name may hold lies in the Basic Multilingual
   * Plane, so for an accepted name the code-unit length and the character
   * count agree.
   */
  lemma AcceptedLengthIsCharCount(raw: string)
    requires ValidateUsername(raw).Accepted?
    ensures Utf16Length(ValidateUsername(raw).name) == |ValidateUsername(raw).name|
  {
    var n := ValidateUsername(raw).name;
    forall i | 0 <= i < |n| ensures n[i] as int <= 0xFFFF {
      assert AllowedChar(n[i]);
    }
  }

  /** Padding a name with whitespace does not change the verdict. */
  lemma ValidateIgnoresPadding(raw: string, pre: string, post: string)
    requires AllWhitespace(pre) && AllWhitespace(post)
    ensures ValidateUsername(pre + raw + post) == ValidateUsername(raw)
  {
    TrimPadding(raw, pre, post);
  }

  lemma TrimPadding(s: string, pre: string, post: string)
    requires AllWhitespace(pre) && AllWhitespace(post)
    ensures Trim(pre + s + post) == Trim(s)
  {
    var x := pre + s + post;
    TrimEmptyIff(s);
    TrimEmptyIff(x);
    if !AllWhitespace(s) {
      var lead := LeadingWhitespace(s);
      assert x[|pre| + lead] == s[lead];
      LeadingWhitespaceUnique(x, |pre| + lead);
      var t := s[lead..];
      assert TrimStart(x) == t + post;
      var e := TrailingWhitespaceStart(t);
      assert e > 0 by { assert !IsJsWhitespace(t[0]); }
      assert (t + post)[e - 1] == t[e - 1];
      forall i | e <= i < |t + post| ensures IsJsWhitespace((t + post)[i]) {
        if i >= |t| { assert (t + post)[i] == post[i - |t|]; }
      }
      TrailingWhitespaceUnique(t + post, e);
      assert (t + post)[..e] == t[..e];
    }
  }

  /**
   * The form's state: the draft in the text field, the error on display and
   * the names handed to `onUsernameSubmit`, in order.
   */
  class UsernameForm {
    var username: string
    var error: string
    var submitted: seq<string>

    constructor ()
      ensures username == "" && error == "" && submitted == []
    {
      username, error, submitted := "", "", [];
    }

    /** Typing replaces the draft and clears any error on display (lines 70-73). */
    method HandleChange(value: string)
      modifies this
      ensures username == value && error == "" && submitted == old(submitted)
    {
      username := value;
      if error != "" {
        error := "";
      }
    }

    /** Submitting either shows the first failing check's message or clears the error and calls back once. */
    method HandleSubmit()
      modifies this
      ensures username == old(username)
      ensures match ValidateUsername(old(username))
        case Accepted(name) => error == "" && submitted == old(submitted) + [name]
        case Rejected(message) => error == message && submitted == old(submitted)
    {
      match ValidateUsername(username)
      case Accepted(name) =>
        error := "";
        submitted := submitted + [name];
      case Rejected(message) =>
        error := message;
    }
  }
}
