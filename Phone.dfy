/** backend/src/utils/phone.ts: normalisation of a user-typed phone number into
    an international form that starts with '+'. */
module Phone {
  import opened Common

  /** The characters the source's filter `/[^0-9+]/g` keeps. */
  predicate IsPhoneChar(c: char)
  {
    ('0' <= c <= '9') || c == '+'
  }

  predicate AllPhoneChars(s: string)
  {
    forall i :: 0 <= i < |s| ==> IsPhoneChar(s[i])
  }

  /** `phone.replace(/[^0-9+]/g, '')`: the subsequence of digits and '+'. */
  function KeepPhoneChars(s: string): (r: string)
    ensures |r| <= |s|
    ensures AllPhoneChars(r)
    ensures r == [] <==> forall i :: 0 <= i < |s| ==> !IsPhoneChar(s[i])
  {
    if s == [] then []
    else (if IsPhoneChar(s[0]) then [s[0]] else []) + KeepPhoneChars(s[1..])
  }

  /** `digits.replace(/^0+/, '')`: drop the run of '0' at the start. */
  function StripLeadingZeros(s: string): (r: string)
    ensures |r| <= |s| && r == s[|s| - |r|..]
    ensures r == [] || r[0] != '0'
    ensures forall i :: 0 <= i < |s| - |r| ==> s[i] == '0'
  {
    if s != [] && s[0] == '0' then StripLeadingZeros(s[1..]) else s
  }

  /** `formatPhoneNumber`: `None` stands for `null`/`undefined` on both sides. */
  function FormatPhoneNumber(phone: Option<string>): (r: Option<string>)
    ensures r.None? <==> !Truthy(phone) || KeepPhoneChars(phone.value) == []
    ensures r.Some? ==> |r.value| >= 1 && r.value[0] == '+' && AllPhoneChars(r.value)
  {
    if !Truthy(phone) then None
    else
      var digits := KeepPhoneChars(phone.value);
      if digits == [] then None
      else
        var trimmed := StripLeadingZeros(digits);
        if StartsWith(trimmed, "+") then Some(trimmed)
        else if StartsWith(trimmed, "91") && |trimmed| > 10 then Some("+" + trimmed)
        else if |trimmed| == 10 then Some("+91" + trimmed)
        else Some("+" + trimmed)
  }

  /** The filter leaves a string of digits and '+' as it is. */
  lemma {:induction false} KeepPhoneCharsIdentity(s: string)
    requires AllPhoneChars(s)
    ensures KeepPhoneChars(s) == s
  {
    if s != [] {
      assert AllPhoneChars(s[1..]) by {
        forall i | 0 <= i < |s[1..]| ensures IsPhoneChar(s[1..][i]) {
          assert s[1..][i] == s[i + 1];
        }
      }
      KeepPhoneCharsIdentity(s[1..]);
    }
  }

  /** The filter distributes over concatenation, so separators can sit anywhere. */
  lemma {:induction false} KeepPhoneCharsAppend(a: string, b: string)
    ensures KeepPhoneChars(a + b) == KeepPhoneChars(a) + KeepPhoneChars(b)
  {
    if a == [] {
      assert a + b == b;
    } else {
      assert (a + b)[0] == a[0];
      assert (a + b)[1..] == a[1..] + b;
      KeepPhoneCharsAppend(a[1..], b);
    }
  }

  /** A value already in international form ('+' then digits and '+') is returned unchanged. */
  lemma InternationalFormUnchanged(s: string)
    requires StartsWith(s, "+") && AllPhoneChars(s)
    ensures FormatPhoneNumber(Some(s)) == Some(s)
  {
    KeepPhoneCharsIdentity(s);
  }

  /** Idempotence: formatting a formatted number gives the same number back. */
  lemma FormatIdempotent(phone: Option<string>)
    requires FormatPhoneNumber(phone).Some?
    ensures FormatPhoneNumber(FormatPhoneNumber(phone)) == FormatPhoneNumber(phone)
  {
    var r := FormatPhoneNumber(phone).value;
    InternationalFormUnchanged(r);
  }

  /** Separators are irrelevant: formatting the filtered characters gives the same result. */
  lemma SeparatorsIgnored(s: string)
    requires KeepPhoneChars(s) != []
    ensures FormatPhoneNumber(Some(KeepPhoneChars(s))) == FormatPhoneNumber(Some(s))
  {
    KeepPhoneCharsIdentity(KeepPhoneChars(s));
  }

  /** A ten-digit national number that does not start with '0' gets the +91 country code,
      even when it happens to start with "91". */
  lemma NationalNumberGetsCountryCode(s: string)
    requires |s| == 10 && s[0] != '0'
    requires forall i :: 0 <= i < |s| ==> '0' <= s[i] <= '9'
    ensures FormatPhoneNumber(Some(s)) == Some("+91" + s)
  {
    KeepPhoneCharsIdentity(s);
  }

  /** A number that already carries the 91 country code without '+' only gets the '+'. */
  lemma CountryCodeWithoutPlus(s: string)
    requires |s| > 10 && StartsWith(s, "91")
    requires forall i :: 0 <= i < |s| ==> '0' <= s[i] <= '9'
    ensures FormatPhoneNumber(Some(s)) == Some("+" + s)
  {
    KeepPhoneCharsIdentity(s);
  }

  /** Any other digit string (neither ten digits nor a "91" number longer than ten) only gets
      a '+' in front, whatever its length. */
  lemma OtherNumberGetsPlus(s: string)
    requires s != [] && s[0] != '0' && |s| != 10
    requires !(StartsWith(s, "91") && |s| > 10)
    requires forall i :: 0 <= i < |s| ==> '0' <= s[i] <= '9'
    ensures FormatPhoneNumber(Some(s)) == Some("+" + s)
  {
    KeepPhoneCharsIdentity(s);
  }

  /** An input made only of zeros (after filtering) collapses to the lone "+". */
  lemma AllZerosGiveBarePlus(n: nat)
    requires n > 0
    ensures FormatPhoneNumber(Some(seq(n, _ => '0'))) == Some("+")
  {
    var z := seq(n, _ => '0');
    assert AllPhoneChars(z) by {
      forall i | 0 <= i < |z| ensures IsPhoneChar(z[i]) {
        assert z[i] == '0';
      }
    }
    KeepPhoneCharsIdentity(z);
    var t := StripLeadingZeros(z);
    assert t == [];
    assert !StartsWith(t, "+") && !StartsWith(t, "91");
    assert "+" + t == "+";
  }

  /** The result given the filtered input with its leading zeros stripped. */
  lemma FormatFromTrimmed(s: string, t: string)
    requires KeepPhoneChars(s) != [] && t == StripLeadingZeros(KeepPhoneChars(s))
    ensures FormatPhoneNumber(Some(s)) ==
      if StartsWith(t, "+") then Some(t)
      else if StartsWith(t, "91") && |t| > 10 then Some("+" + t)
      else if |t| == 10 then Some("+91" + t)
      else Some("+" + t)
  {
  }

  /** A leading '0' is dropped: prefixing one to any input that keeps a digit or '+' does not
      change the result. */
  lemma LeadingZeroIgnored(s: string)
    requires KeepPhoneChars(s) != []
    ensures FormatPhoneNumber(Some("0" + s)) == FormatPhoneNumber(Some(s))
  {
    var z := "0" + s;
    var k := KeepPhoneChars(s);
    assert KeepPhoneChars(z) == "0" + k by {
      assert z[0] == '0' && z[1..] == s;
    }
    assert StripLeadingZeros("0" + k) == StripLeadingZeros(k) by {
      assert ("0" + k)[1..] == k;
    }
    FormatFromTrimmed(z, StripLeadingZeros(k));
    FormatFromTrimmed(s, StripLeadingZeros(k));
  }
}
