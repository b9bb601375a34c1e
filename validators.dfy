/**
 * Client-side form checks shared by the frontend pages: the email pattern
 * `^[^\s@]+@[^\s@]+\.[^\s@]+$` of the CV wizard and the registration page,
 * and the error record a form's `validate` builds one check at a time.
 */
module Validators {
  import opened Text

  /** A non-empty run of characters that are neither white space nor '@' (the class `[^\s@]+`). */
  predicate AddressPart(s: string)
  {
    |s| > 0 && forall k | 0 <= k < |s| :: s[k] != '@' && !IsJsWhitespace(s[k])
  }

  /** The regular expression matches `s`: a part, '@', a part, '.', a part. */
  predicate MatchesEmailPattern(s: string)
  {
    exists i, j | 0 <= i < j < |s| ::
      s[i] == '@' && s[j] == '.' && AddressPart(s[..i]) && AddressPart(s[i + 1..j]) && AddressPart(s[j + 1..])
  }

  /** `s` holds no white space and exactly one '@', at index `i`. */
  predicate SingleAt(s: string, i: int)
  {
    0 <= i < |s| && s[i] == '@' && forall k | 0 <= k < |s| :: (s[k] == '@' ==> k == i) && !IsJsWhitespace(s[k])
  }

  /** Some '.' lies strictly between `i + 1` and the last character. */
  predicate DotAfter(s: string, i: int)
  {
    exists j | 0 <= i + 1 < j < |s| - 1 :: s[j] == '.'
  }

  /** A match splits `s` at its one '@', and a '.' follows with a character on each side. */
  lemma MatchIsShaped(s: string, i: int, j: int)
    requires 0 <= i < j < |s| && s[i] == '@' && s[j] == '.'
    requires AddressPart(s[..i]) && AddressPart(s[i + 1..j]) && AddressPart(s[j + 1..])
    ensures 0 < i && SingleAt(s, i) && DotAfter(s, i)
  {
    forall k | 0 <= k < |s|
      ensures (s[k] == '@' ==> k == i) && !IsJsWhitespace(s[k])
    {
      if k < i {
        assert s[k] == s[..i][k];
      } else if i < k < j {
        assert s[k] == s[i + 1..j][k - i - 1];
      } else if j < k {
        assert s[k] == s[j + 1..][k - j - 1];
      }
    }
  }

  /** Conversely, the single '@' and a '.' after it cut `s` into the three parts the pattern asks for. */
  lemma ShapedMatches(s: string, i: int, j: int)
    requires 0 < i && SingleAt(s, i) && i + 1 < j < |s| - 1 && s[j] == '.'
    ensures MatchesEmailPattern(s)
  {
    assert AddressPart(s[..i]);
    assert AddressPart(s[i + 1..j]);
    assert AddressPart(s[j + 1..]);
  }

  /**
   * The pattern, character by character: no white space, exactly one '@',
   * not first, and after it a '.' with at least one character on each side.
   */
  lemma EmailPatternShape(s: string)
    ensures MatchesEmailPattern(s) <==> exists i | 0 < i < |s| :: SingleAt(s, i) && DotAfter(s, i)
  {
    if MatchesEmailPattern(s) {
      var i, j :| 0 <= i < j < |s| && s[i] == '@' && s[j] == '.'
        && AddressPart(s[..i]) && AddressPart(s[i + 1..j]) && AddressPart(s[j + 1..]);
      MatchIsShaped(s, i, j);
    }
    if exists i | 0 < i < |s| :: SingleAt(s, i) && DotAfter(s, i) {
      var i :| 0 < i < |s| && SingleAt(s, i) && DotAfter(s, i);
      var j :| i + 1 < j < |s| - 1 && s[j] == '.';
      ShapedMatches(s, i, j);
    }
  }

  /**
   * Any address made of a local part, '@', a domain, '.' and a last label,
   * each non-empty and without white space or '@', matches: the shape of
   * the address the registration test and the wizard's placeholder use.
   */
  lemma AddressOfPartsMatches(local: string, domain: string, tld: string)
    requires AddressPart(local) && AddressPart(domain) && AddressPart(tld)
    ensures MatchesEmailPattern(local + "@" + domain + "." + tld)
  {
    var s := local + "@" + domain + "." + tld;
    var i := |local|;
    var j := |local| + 1 + |domain|;
    assert s[..i] == local;
    assert s[i + 1..j] == domain;
    assert s[j + 1..] == tld;
    assert s[i] == '@' && s[j] == '.';
  }

  /** One check of a `validate`: the field, whether it is trimmed first, and the message when it is empty. */
  datatype Check = Check(field: string, trimmed: bool, message: string)

  /** The field's current value; a field the form lacks reads as "". */
  function FieldValue(form: map<string, string>, field: string): string
  {
    if field in form then form[field] else ""
  }

  /** `!form.x` or `!form.x.trim()`: the check's value is empty. */
  predicate Fails(c: Check, form: map<string, string>)
  {
    if c.trimmed then JsTrim(FieldValue(form, c.field)) == [] else FieldValue(form, c.field) == []
  }

  /** The `newErrors` record after running `checks` in order, each failing check assigning its message. */
  function ErrorsOf(checks: seq<Check>, form: map<string, string>): map<string, string>
  {
    if |checks| == 0 then map[]
    else
      var before := ErrorsOf(checks[..|checks| - 1], form);
      var c := checks[|checks| - 1];
      if Fails(c, form) then before[c.field := c.message] else before
  }

  /** No two checks of the sequence name the same field. */
  predicate DistinctFields(checks: seq<Check>)
  {
    forall a, b | 0 <= a < b < |checks| :: checks[a].field != checks[b].field
  }

  /** Some check in `checks` is on `field` and fails. */
  predicate SomeCheckFails(checks: seq<Check>, form: map<string, string>, field: string)
  {
    exists k | 0 <= k < |checks| :: checks[k].field == field && Fails(checks[k], form)
  }

  /**
   * With one check per field, the record holds a field exactly when that
   * field's check fails, and then holds that check's message.
   */
  lemma {:induction false} ErrorsOfExact(checks: seq<Check>, form: map<string, string>)
    requires DistinctFields(checks)
    ensures forall f :: f in ErrorsOf(checks, form) <==> SomeCheckFails(checks, form, f)
    ensures forall k | 0 <= k < |checks| && Fails(checks[k], form) ::
      checks[k].field in ErrorsOf(checks, form) && ErrorsOf(checks, form)[checks[k].field] == checks[k].message
  {
    if |checks| > 0 {
      var init := checks[..|checks| - 1];
      assert DistinctFields(init);
      ErrorsOfExact(init, form);
      forall f
        ensures f in ErrorsOf(checks, form) <==> SomeCheckFails(checks, form, f)
      {
        if SomeCheckFails(init, form, f) {
          var k :| 0 <= k < |init| && init[k].field == f && Fails(init[k], form);
          assert checks[k] == init[k];
        }
        if SomeCheckFails(checks, form, f) {
          var k :| 0 <= k < |checks| && checks[k].field == f && Fails(checks[k], form);
          if k < |init| {
            assert init[k] == checks[k];
          }
        }
      }
      forall k | 0 <= k < |checks| && Fails(checks[k], form)
        ensures checks[k].field in ErrorsOf(checks, form) && ErrorsOf(checks, form)[checks[k].field] == checks[k].message
      {
        if k < |init| {
          assert init[k] == checks[k];
        }
      }
    }
  }

  /** The record is empty exactly when every check passes. */
  lemma NoErrorsIff(checks: seq<Check>, form: map<string, string>)
    requires DistinctFields(checks)
    ensures ErrorsOf(checks, form) == map[] <==> forall k | 0 <= k < |checks| :: !Fails(checks[k], form)
  {
    ErrorsOfExact(checks, form);
    if ErrorsOf(checks, form) != map[] {
      var f :| f in ErrorsOf(checks, form);
      assert SomeCheckFails(checks, form, f);
    }
  }

  /**
   * `validate`: runs the checks in order into a fresh record, which the
   * caller then stores as the form's errors; answers whether it is empty.
   */
  method RunChecks(checks: seq<Check>, form: map<string, string>) returns (errors: map<string, string>, ok: bool)
    ensures errors == ErrorsOf(checks, form)
    ensures ok <==> errors == map[]
  {
    errors := map[];
    var i := 0;
    while i < |checks|
      invariant 0 <= i <= |checks|
      invariant errors == ErrorsOf(checks[..i], form)
    {
      assert checks[..i + 1][..i] == checks[..i];
      if Fails(checks[i], form) {
        errors := errors[checks[i].field := checks[i].message];
      }
      i := i + 1;
    }
    assert checks[..|checks|] == checks;
    ok := |errors| == 0;
  }
}
