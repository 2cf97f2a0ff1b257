/** internal/common/db.go: error values and how they are classified. */
module Database {
  import opened Wrappers
  import opened Domain
  import opened Messages

  /** Go error values: an application error, a driver's PgError, fmt.Errorf with %w,
      errors.Join, and anything else. */
  datatype GoError =
    | AppError(error: Error, text: string)
    | PgError(severity: string, message: string, code: string, constraint: string)
    | Wrapped(prefix: string, inner: GoError)
    | Joined(first: GoError, second: GoError)
    | Plain(text: string)
  {
    /** err.Error() */
    function Text(): string {
      match this
      case AppError(_, text) => text
      case PgError(severity, message, code, _) => severity + ": " + message + " (SQLSTATE " + code + ")"
      case Wrapped(prefix, inner) => prefix + inner.Text()
      case Joined(first, second) => first.Text() + "\n" + second.Text()
      case Plain(t) => t
    }

    /** errors.As(err, &pgErr): the first PgError, depth first. */
    function AsPgError(): (r: Option<GoError>)
      ensures r.Some? ==> r.value.PgError?
    {
      match this
      case AppError(_, _) => None
      case PgError(_, _, _, _) => Some(this)
      case Wrapped(_, inner) => inner.AsPgError()
      case Joined(first, second) =>
        (match first.AsPgError() case Some(e) => Some(e) case None => second.AsPgError())
      case Plain(_) => None
    }
  }

  // backoff.WithMaxTries
  const MAX_TRIES := 10

  const COULD_NOT_SERIALIZE := "could not serialize access"
  const UNIQUE_VIOLATION := "23505"
  const UNIQUE_KEY_CONSTRAINT := "uq_reservation_idempotency_key"

  predicate OccursAt(s: string, sub: string, i: nat) {
    i + |sub| <= |s| && s[i..i + |sub|] == sub
  }

  /** strings.Contains */
  predicate Contains(s: string, sub: string) {
    exists i: nat | i <= |s| :: OccursAt(s, sub, i)
  }

  predicate Retryable(err: GoError) {
    Contains(err.Text(), COULD_NOT_SERIALIZE)
  }

  predicate IsUniqueViolation(err: Option<GoError>, constraint: string) {
    err.Some? && err.value.AsPgError().Some? &&
    err.value.AsPgError().value.code == UNIQUE_VIOLATION && err.value.AsPgError().value.constraint == constraint
  }

  /** An error is retried exactly when its text has the phrase that PostgreSQL begins its
      serialization failures with; it is the key's unique violation exactly when the first
      driver's error in it says so by its code and its constraint. */
  lemma ClassesAre(err: GoError)
    ensures Retryable(err) <==> exists a, b :: err.Text() == a + "could not serialize access" + b
    ensures err.PgError? ==>
              (IsUniqueViolation(Some(err), UNIQUE_KEY_CONSTRAINT) <==>
               err.code == "23505" && err.constraint == "uq_reservation_idempotency_key")
    ensures !IsUniqueViolation(None, UNIQUE_KEY_CONSTRAINT)
  {
    ContainsIs(err.Text(), COULD_NOT_SERIALIZE);
    hide Contains;
  }

  lemma ContainsIs(s: string, sub: string)
    ensures Contains(s, sub) <==> exists a, b :: s == a + sub + b
  {
    if i: nat :| i <= |s| && OccursAt(s, sub, i) {
      assert s == s[..i] + sub + s[i + |sub|..];
    }
    if a, b :| s == a + sub + b {
      assert s[|a|..|a| + |sub|] == sub;
      assert OccursAt(s, sub, |a|);
    }
  }

  // ---- Wrapping and rollback failures do not change the class of an error ----

  lemma ContainsInSuffix(a: string, b: string, sub: string)
    requires Contains(b, sub)
    ensures Contains(a + b, sub)
  {
    var i: nat :| i <= |b| && OccursAt(b, sub, i);
    assert (a + b)[|a| + i..|a| + i + |sub|] == b[i..i + |sub|];
    assert OccursAt(a + b, sub, |a| + i);
  }

  lemma ContainsInPrefix(a: string, b: string, sub: string)
    requires Contains(a, sub)
    ensures Contains(a + b, sub)
  {
    var i: nat :| i <= |a| && OccursAt(a, sub, i);
    assert (a + b)[i..i + |sub|] == a[i..i + |sub|];
    assert OccursAt(a + b, sub, i);
  }

  lemma NotAcross(a: string, c: char, b: string, sub: string, i: nat)
    requires c !in sub && i <= |a| < i + |sub|
    ensures !OccursAt(a + [c] + b, sub, i)
  {
    var s := a + [c] + b;
    assert i + |sub| <= |s| ==> s[i..i + |sub|][|a| - i] == s[|a|] == c;
    assert sub[|a| - i] in sub;
  }

  /** An occurrence in two texts joined by a character it does not have lies in one of them. */
  lemma ContainsInJoin(a: string, c: char, b: string, sub: string)
    requires c !in sub && sub != ""
    ensures Contains(a + [c] + b, sub) <==> Contains(a, sub) || Contains(b, sub)
  {
    var s := a + [c] + b;
    if Contains(s, sub) {
      var i: nat :| i <= |s| && OccursAt(s, sub, i);
      if i + |sub| <= |a| {
        assert a[i..i + |sub|] == sub;
        assert OccursAt(a, sub, i);
      } else if i > |a| {
        var j: nat := i - |a| - 1;
        assert b == s[|a| + 1..];
        assert b[j..j + |sub|] == s[i..i + |sub|];
        assert OccursAt(b, sub, j);
      } else {
        NotAcross(a, c, b, sub, i);
      }
    }
    if Contains(a, sub) { ContainsInPrefix(a, [c] + b, sub); assert a + ([c] + b) == s; }
    if Contains(b, sub) { ContainsInSuffix(a + [c], b, sub); }
  }

  /** errors.Join(err, rollbackErr) is retried exactly when one of the two would be. It is the
      unique violation exactly when the first of the two to hold a driver's error is, and a
      prefix of context changes neither. */
  lemma JoinKeepsClass(err: GoError, rollback: GoError, prefix: string, constraint: string)
    ensures Retryable(Joined(err, rollback)) <==> Retryable(err) || Retryable(rollback)
    ensures Retryable(err) ==> Retryable(Wrapped(prefix, err))
    ensures IsUniqueViolation(Some(Joined(err, rollback)), constraint) <==>
            IsUniqueViolation(Some(if err.AsPgError().Some? then err else rollback), constraint)
    ensures IsUniqueViolation(Some(Wrapped(prefix, err)), constraint) <==> IsUniqueViolation(Some(err), constraint)
  {
    hide Contains;
    ContainsInJoin(err.Text(), '\n', rollback.Text(), COULD_NOT_SERIALIZE);
    if Retryable(err) { ContainsInSuffix(prefix, err.Text(), COULD_NOT_SERIALIZE); }
  }

  // ---- What the application's own errors say ----

  lemma ContainsAllItsCharacters(s: string, sub: string, c: char)
    requires Contains(s, sub) && c in sub
    ensures c in s
  {
    var i: nat :| i <= |s| && OccursAt(s, sub, i);
    var k :| 0 <= k < |sub| && sub[k] == c;
    assert s[i..i + |sub|][k] == s[i + k];
  }

  function App(e: Error): GoError
    requires !e.ServiceTypeNotFound?
  {
    AppError(e, Describe(e))
  }

  /** The catalog's error, which quotes the caller's own text. */
  function NoSuchService(serviceType: string, printable: char -> bool): GoError {
    AppError(ServiceTypeNotFound(serviceType), UnknownServiceType(serviceType, printable))
  }

  /** A refusal that a transaction can end with is never retried, whatever start times, fields
      or expiries it tells of, and never taken for a unique violation. */
  lemma RefusalsArePermanent(e: Error)
    requires !e.ServiceTypeNotFound?
    ensures !Retryable(App(e)) && !IsUniqueViolation(Some(App(e)), UNIQUE_KEY_CONSTRAINT)
  {
    hide PublicError, Slug, Particulars, Contains;
    assert COULD_NOT_SERIALIZE[17] == 'z';
    var middle: Plain := ", Slug: ";
    assert Describe(e) == PublicError(e) + middle + Slug(e) + Particulars(e);
    if Retryable(App(e)) { ContainsAllItsCharacters(Describe(e), COULD_NOT_SERIALIZE, 'z'); }
  }

  // ---- A service type that looks like a serialization failure ----

  /** A control character without an escape of its own, or one that Go's table calls unprintable. */
  predicate ShownInHex(c: char, printable: char -> bool) {
    || (c < ' ' && !('\U{0007}' <= c <= '\r'))
    || c == '\U{007F}'
    || (c > '\U{007F}' && !printable(c))
  }

  /** What ends in the letter c once quoted: that letter, and a hex escape whose last digit is c. */
  predicate EndsInC(c: char, printable: char -> bool) {
    c == 'c' || (ShownInHex(c, printable) && c as int % 16 == 12)
  }

  /** Somewhere in the text stands the phrase, its first letter as it is or looking like one. */
  predicate Mimics(text: string, phrase: string, printable: char -> bool)
    requires phrase != ""
  {
    exists i: nat | i < |text| :: EndsInC(text[i], printable) && phrase[1..] <= text[i + 1..]
  }

  /** The phrase begins with a c that no hex escape can be the inside of, and needs no escape. */
  predicate PlainPhrase(s: string) {
    && |s| >= 2 && s[0] == 'c' && s[1] !in HEX
    && forall i | 0 <= i < |s| :: ' ' <= s[i] <= '~' && s[i] != '\"' && s[i] != '\\'
  }

  lemma ContainsStep(s: string, sub: string)
    requires s != "" && sub != ""
    ensures Contains(s, sub) <==> sub <= s || Contains(s[1..], sub)
  {
    if i: nat :| i <= |s| && OccursAt(s, sub, i) {
      if i > 0 {
        assert s[1..][i - 1..i - 1 + |sub|] == s[i..i + |sub|];
        assert OccursAt(s[1..], sub, i - 1);
      }
    }
    if sub <= s { assert OccursAt(s, sub, 0); }
    if Contains(s[1..], sub) {
      assert [s[0]] + s[1..] == s;
      ContainsInSuffix([s[0]], s[1..], sub);
    }
  }

  lemma MimicsStep(s: string, phrase: string, printable: char -> bool)
    requires s != "" && phrase != ""
    ensures Mimics(s, phrase, printable) <==>
            (EndsInC(s[0], printable) && phrase[1..] <= s[1..]) || Mimics(s[1..], phrase, printable)
  {
    hide EndsInC;
    if i: nat :| i < |s| && EndsInC(s[i], printable) && phrase[1..] <= s[i + 1..] {
      if i > 0 {
        assert s[1..][i - 1] == s[i] && s[1..][i..] == s[i + 1..];
      }
    }
    if Mimics(s[1..], phrase, printable) {
      var i: nat :| i < |s[1..]| && EndsInC(s[1..][i], printable) && phrase[1..] <= s[1..][i + 1..];
      assert s[i + 1] == s[1..][i] && s[i + 2..] == s[1..][i + 1..];
    }
  }

  lemma {:induction false} QuotedPrefix(p: string, s: string, printable: char -> bool)
    requires forall i | 0 <= i < |p| :: ' ' <= p[i] <= '~' && p[i] != '\"' && p[i] != '\\'
    ensures p <= Quoted(s, printable) <==> p <= s
  {
    if p != "" && s != "" {
      hide Escape, Hex;
      EscapeForms(s[0], printable);
      var q, e := Quoted(s, printable), Escape(s[0], printable);
      assert q == e + Quoted(s[1..], printable);
      assert p <= q <==> p[0] == q[0] && p[1..] <= q[1..];
      assert p <= s <==> p[0] == s[0] && p[1..] <= s[1..];
      if e == [s[0]] {
        assert q[1..] == Quoted(s[1..], printable);
        QuotedPrefix(p[1..], s[1..], printable);
      } else {
        assert q[0] == '\\';
      }
    }
  }

  predicate IsHexEscape(e: string, c: char, width: nat) {
    width > 0 && |e| >= 2 && e[1] != 'c' && e == ['\\', e[1]] + Hex(c as int, width)
  }

  /** Itself, a backslash and a character that is no c, or a backslash, a kind and hex digits. */
  lemma EscapeForms(c: char, printable: char -> bool)
    ensures var e := Escape(c, printable);
            || (e == [c] && c != '\\' && c != '\"' && ' ' <= c && !ShownInHex(c, printable))
            || (|e| == 2 && e[0] == '\\' && e[1] != 'c' && !EndsInC(c, printable)
                && (c < ' ' || c == '\\' || c == '\"'))
            || (ShownInHex(c, printable) && (c < ' ' || c > '~') && exists width: nat :: IsHexEscape(e, c, width))
  {
    hide Hex;
    if ShownInHex(c, printable) {
      var kind := if c < ' ' || c == '\U{007F}' then 'x' else if c < '\U{10000}' then 'u' else 'U';
      var width: nat := if kind == 'x' then 2 else if kind == 'u' then 4 else 8;
      assert Escape(c, printable) == ['\\', kind] + Hex(c as int, width);
      assert IsHexEscape(Escape(c, printable), c, width);
    }
  }

  /** Where the phrase can begin in the quotation of one character and what follows it. */
  lemma PhraseAtCharacter(c: char, printable: char -> bool, rest: string, sub: string)
    requires PlainPhrase(sub)
    ensures Contains(Escape(c, printable) + rest, sub) <==>
            Contains(rest, sub) || (EndsInC(c, printable) && sub[1..] <= rest)
  {
    hide Contains, Escape, Hex;
    EscapeForms(c, printable);
    var e := Escape(c, printable);
    var s := e + rest;
    ContainsStep(s, sub);
    assert sub <= s <==> 'c' == s[0] && sub[1..] <= s[1..];
    if e == [c] {
      assert s[1..] == rest;
    } else {
      assert s[0] == '\\' && s[1..][0] == e[1] && e[1] != 'c';
      ContainsStep(s[1..], sub);
      assert s[1..][1..] == e[2..] + rest;
      if |e| == 2 {
        assert e[2..] + rest == rest;
      } else {
        var width: nat :| IsHexEscape(e, c, width);
        assert e[2..] == Hex(c as int, width);
        LastHexDigit(c as int, width);
        PhraseAtHex(Hex(c as int, width), rest, sub);
      }
    }
  }

  lemma LastHexDigit(n: nat, width: nat)
    requires width > 0
    ensures Hex(n, width)[width - 1] == 'c' <==> n % 16 == 12
  {
  }

  /** Inside hex digits the phrase can begin at the last one only. */
  lemma {:induction false} PhraseAtHex(digits: string, rest: string, sub: string)
    requires PlainPhrase(sub) && digits != "" && forall i | 0 <= i < |digits| :: digits[i] in HEX
    ensures Contains(digits + rest, sub) <==>
            Contains(rest, sub) || (digits[|digits| - 1] == 'c' && sub[1..] <= rest)
  {
    hide Contains;
    var s := digits + rest;
    ContainsStep(s, sub);
    assert s[1..] == digits[1..] + rest;
    if |digits| == 1 {
      assert digits[1..] + rest == rest;
      assert sub <= s <==> 'c' == s[0] && sub[1..] <= s[1..];
    } else {
      PhraseAtHex(digits[1..], rest, sub);
      assert s[1] == digits[1];
    }
  }

  /** A plain phrase stands in a quoted text exactly when the text mimics it. */
  lemma {:induction false} QuotedContains(s: string, phrase: string, printable: char -> bool)
    requires PlainPhrase(phrase)
    ensures Contains(Quoted(s, printable), phrase) <==> Mimics(s, phrase, printable)
  {
    hide Contains, Escape, EndsInC;
    if s == "" {
      NothingInEmpty(phrase);
    } else {
      QuotedContains(s[1..], phrase, printable);
      PhraseAtCharacter(s[0], printable, Quoted(s[1..], printable), phrase);
      QuotedPrefix(phrase[1..], s[1..], printable);
      MimicsStep(s, phrase, printable);
    }
  }

  lemma NothingInEmpty(sub: string)
    requires sub != ""
    ensures !Contains("", sub)
  {
  }

  /** The unknown-service-type error carries the caller's own text: it reads as retryable
      exactly when that text mimics the phrase, whatever characters Go's table calls printable. */
  lemma UnknownServiceTypeIsRetryableIff(serviceType: string, printable: char -> bool)
    ensures Retryable(NoSuchService(serviceType, printable)) <==> Mimics(serviceType, COULD_NOT_SERIALIZE, printable)
  {
    hide Contains, Quoted, Mimics;
    var sub := COULD_NOT_SERIALIZE;
    assert sub[17] == 'z';
    PhraseIsPlain();
    var quoted := Quoted(serviceType, printable);
    ContainsInJoin(UNKNOWN_SERVICE_TYPE, '\"', quoted + ['\"'] + SERVICE_TYPE_SLUG, sub);
    ContainsInJoin(quoted, '\"', SERVICE_TYPE_SLUG, sub);
    if Contains(UNKNOWN_SERVICE_TYPE, sub) { ContainsAllItsCharacters(UNKNOWN_SERVICE_TYPE, sub, 'z'); }
    if Contains(SERVICE_TYPE_SLUG, sub) { ContainsAllItsCharacters(SERVICE_TYPE_SLUG, sub, 'z'); }
    QuotedContains(serviceType, sub, printable);
  }

  lemma PhraseIsPlain()
    ensures PlainPhrase(COULD_NOT_SERIALIZE)
  {
  }

  /** Three inputs that do: the phrase itself, and the phrase whose first letter is a file
      separator, or a zero-width non-joiner if that is not printable. */
  lemma ServiceTypesThatMimic(printable: char -> bool)
    ensures Retryable(NoSuchService(COULD_NOT_SERIALIZE, printable))
    ensures Retryable(NoSuchService(['\U{001C}'] + COULD_NOT_SERIALIZE[1..], printable))
    ensures !printable('\U{200C}') ==>
              Retryable(NoSuchService(['\U{200C}'] + COULD_NOT_SERIALIZE[1..], printable))
  {
    hide Retryable, NoSuchService;
    MimicsAtFront('c', printable);
    assert ['c'] + COULD_NOT_SERIALIZE[1..] == COULD_NOT_SERIALIZE;
    MimicsAtFront('\U{001C}', printable);
    if !printable('\U{200C}') { MimicsAtFront('\U{200C}', printable); }
  }

  lemma MimicsAtFront(c: char, printable: char -> bool)
    requires EndsInC(c, printable)
    ensures Retryable(NoSuchService([c] + COULD_NOT_SERIALIZE[1..], printable))
  {
    hide Retryable, NoSuchService, EndsInC;
    var text, tail := [c] + COULD_NOT_SERIALIZE[1..], COULD_NOT_SERIALIZE[1..];
    assert text[0] == c && text[1..] == tail && tail <= text[0 + 1..];
    UnknownServiceTypeIsRetryableIff(text, printable);
  }
}
