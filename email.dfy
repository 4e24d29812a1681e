/** The email shape both lead forms test before anything is sent:
    the regular expression `^[^\s@]+@[^\s@]+\.[^\s@]+$`. */
module Email {
  import opened Text

  /** `[^\s@]`: neither white space nor '@'. */
  predicate IsPlain(c: char) {
    !IsWhitespace(c) && c != '@'
  }

  /** Every character of `s[a..b]` is plain. */
  predicate PlainBetween(s: string, a: nat, b: nat)
    requires a <= b <= |s|
  {
    forall k :: a <= k < b ==> IsPlain(s[k])
  }

  /** The strings the pattern accepts, read off the pattern: a non-empty plain run, '@', a
      non-empty plain run, '.', a non-empty plain run. The '.' is itself a plain character,
      so the whole string is plain apart from the one '@'. */
  ghost predicate MatchesEmailPattern(s: string) {
    exists at, dot :: 0 < at && at + 1 < dot && dot + 1 < |s| && s[at] == '@' && s[dot] == '.' &&
      forall k :: 0 <= k < |s| && k != at ==> IsPlain(s[k])
  }

  /** The two validation messages both lead forms show. */
  const RequiredFieldsMessage: string := "Please fill in all required fields"
  const InvalidEmailMessage: string := "Please enter a valid email address"

  /** The states of a left-to-right matcher for the pattern: nothing read, inside the
      local part, just after the '@', inside the domain with no usable '.' yet, just after
      a usable '.', inside the last run (accepting), and rejected. */
  datatype MatchState = Start | Local | AfterAt | Domain | AfterDot | Tail | Rejected

  function Step(q: MatchState, c: char): MatchState {
    match q
    case Start => if IsPlain(c) then Local else Rejected
    case Local => if c == '@' then AfterAt else if IsPlain(c) then Local else Rejected
    case AfterAt => if IsPlain(c) then Domain else Rejected
    case Domain => if c == '.' then AfterDot else if IsPlain(c) then Domain else Rejected
    case AfterDot => if IsPlain(c) then Tail else Rejected
    case Tail => if IsPlain(c) then Tail else Rejected
    case Rejected => Rejected
  }

  /** The state after reading `s[..i]`. */
  function StateAt(s: string, i: nat): MatchState
    requires i <= |s|
  {
    if i == 0 then Start else Step(StateAt(s, i - 1), s[i - 1])
  }

  /** `validateEmail`: the regular expression test, as the matcher reading the whole email
      and ending in its accepting state. */
  function ValidateEmail(email: string): bool {
    StateAt(email, |email|) == Tail
  }

  /** What each state says about the prefix read so far. */
  ghost predicate StateMeaning(s: string, i: nat, q: MatchState)
    requires i <= |s|
  {
    match q
    case Start => i == 0
    case Local => i >= 1 && PlainBetween(s, 0, i)
    case AfterAt => i >= 2 && s[i - 1] == '@' && PlainBetween(s, 0, i - 1)
    case Domain => exists at :: 1 <= at && at + 2 <= i && s[at] == '@'
                     && PlainBetween(s, 0, at) && PlainBetween(s, at + 1, i)
    case AfterDot => exists at :: 1 <= at && at + 3 <= i && s[at] == '@' && s[i - 1] == '.'
                       && PlainBetween(s, 0, at) && PlainBetween(s, at + 1, i)
    case Tail => exists at, dot :: 1 <= at && at + 1 < dot && dot + 1 < i && s[at] == '@' && s[dot] == '.'
                   && PlainBetween(s, 0, at) && PlainBetween(s, at + 1, i)
    case Rejected => true
  }

  /** Soundness of the matcher, state by state. */
  lemma {:induction false} StateAtMeaning(s: string, i: nat)
    requires i <= |s|
    ensures StateMeaning(s, i, StateAt(s, i))
  {
    if i > 0 {
      StateAtMeaning(s, i - 1);
      var q := StateAt(s, i - 1);
      var c := s[i - 1];
      match q
      case Start =>
      case Local =>
      case AfterAt =>
        if IsPlain(c) {
          assert StateMeaning(s, i, Domain) by {
            assert PlainBetween(s, i - 1, i);
          }
        }
      case Domain =>
        var at :| 1 <= at && at + 2 <= i - 1 && s[at] == '@'
          && PlainBetween(s, 0, at) && PlainBetween(s, at + 1, i - 1);
        if IsPlain(c) {
          assert PlainBetween(s, at + 1, i);
        }
      case AfterDot =>
        var at :| 1 <= at && at + 3 <= i - 1 && s[at] == '@' && s[i - 2] == '.'
          && PlainBetween(s, 0, at) && PlainBetween(s, at + 1, i - 1);
        if IsPlain(c) {
          assert PlainBetween(s, at + 1, i);
          assert StateMeaning(s, i, Tail) by {
            assert 1 <= at && at + 1 < i - 2 && i - 2 + 1 < i && s[at] == '@' && s[i - 2] == '.';
          }
        }
      case Tail =>
        var at, dot :| 1 <= at && at + 1 < dot && dot + 1 < i - 1 && s[at] == '@' && s[dot] == '.'
          && PlainBetween(s, 0, at) && PlainBetween(s, at + 1, i - 1);
        if IsPlain(c) {
          assert PlainBetween(s, at + 1, i);
        }
      case Rejected =>
    }
  }

  /** Completeness of the matcher on the local part and the '@'. */
  lemma {:induction false} StateAtLocal(s: string, at: nat, i: nat)
    requires 1 <= i <= at < |s| && PlainBetween(s, 0, at)
    ensures StateAt(s, i) == Local
  {
    if i > 1 {
      StateAtLocal(s, at, i - 1);
    }
  }

  /** Completeness of the matcher on the domain: once past the '@' and the first domain
      character, the matcher stays in the domain states, and it reaches the accepting
      state two characters after any '.' that follows a domain character. */
  lemma {:induction false} StateAtDomain(s: string, at: nat, dot: nat, i: nat)
    requires 1 <= at && at + 1 < dot && dot + 1 < |s| && s[at] == '@' && s[dot] == '.'
    requires forall k :: 0 <= k < |s| && k != at ==> IsPlain(s[k])
    requires at + 2 <= i <= |s|
    ensures StateAt(s, i) in {Domain, AfterDot, Tail}
    ensures i == dot + 1 ==> StateAt(s, i) in {AfterDot, Tail}
    ensures i >= dot + 2 ==> StateAt(s, i) == Tail
  {
    if i == at + 2 {
      StateAtLocal(s, at, at);
      assert StateAt(s, at + 1) == AfterAt;
    } else {
      StateAtDomain(s, at, dot, i - 1);
    }
  }

  /** The matcher accepts exactly the strings the pattern describes. */
  lemma ValidateEmailMatchesPattern(email: string)
    ensures ValidateEmail(email) <==> MatchesEmailPattern(email)
  {
    if ValidateEmail(email) {
      StateAtMeaning(email, |email|);
      var at, dot :| 1 <= at && at + 1 < dot && dot + 1 < |email| && email[at] == '@' && email[dot] == '.'
        && PlainBetween(email, 0, at) && PlainBetween(email, at + 1, |email|);
      assert forall k :: 0 <= k < |email| && k != at ==> IsPlain(email[k]);
    }
    if MatchesEmailPattern(email) {
      var at, dot :| 0 < at && at + 1 < dot && dot + 1 < |email| && email[at] == '@' && email[dot] == '.' &&
        forall k :: 0 <= k < |email| && k != at ==> IsPlain(email[k]);
      StateAtDomain(email, at, dot, |email|);
    }
  }

  /** The address of the worked example is accepted. */
  lemma WorkedExampleIsValid()
    ensures ValidateEmail("ada@bigbank.com")
  {
    var s := "ada@bigbank.com";
    assert forall k :: 0 <= k < |s| && k != 3 ==> IsPlain(s[k]);
    StateAtDomain(s, 3, 11, |s|);
  }

  /** A domain without a dot is refused. */
  lemma MissingDotIsInvalid()
    ensures !ValidateEmail("ada@bigbank")
  {
    var s := "ada@bigbank";
    StateAtMeaning(s, |s|);
  }

  /** White space anywhere is refused. */
  lemma SpaceIsInvalid()
    ensures !ValidateEmail("ada lovelace@bigbank.com")
  {
    var s := "ada lovelace@bigbank.com";
    StateAtMeaning(s, |s|);
    assert !IsPlain(s[3]);
  }

  /** A second '@' is refused. */
  lemma SecondAtIsInvalid()
    ensures !ValidateEmail("ada@big@bank.com")
  {
    var s := "ada@big@bank.com";
    StateAtMeaning(s, |s|);
    assert !IsPlain(s[3]) && !IsPlain(s[7]);
  }
}
