/** The user entity of app/database/models/user.go: the any-of permission
    check, phone-number normalisation and the two hooks that apply it. */
module UserModel {
  import opened Common
  import opened Models

  // ---------------------------------------------------------------------
  // Permissions
  // ---------------------------------------------------------------------

  /** Some required name equals the name of some held permission. */
  predicate HoldsAnyOf(held: seq<Permission>, required: seq<string>)
  {
    exists i, j :: 0 <= i < |required| && 0 <= j < |held| && held[j].name == required[i]
  }

  function NamesOf(held: seq<Permission>): (r: set<string>)
  {
    set j | 0 <= j < |held| :: held[j].name
  }

  /** The any-of check is a set overlap: one shared name suffices, and an
      empty list of required names is never satisfied. */
  lemma HoldsAnyOfIsOverlap(held: seq<Permission>, required: seq<string>)
    ensures HoldsAnyOf(held, required) <==> NamesOf(held) * (set r | r in required) != {}
    ensures required == [] ==> !HoldsAnyOf(held, required)
  {
    if HoldsAnyOf(held, required) {
      var i, j :| 0 <= i < |required| && 0 <= j < |held| && held[j].name == required[i];
      assert required[i] in NamesOf(held) * (set r | r in required);
    }
    if NamesOf(held) * (set r | r in required) != {} {
      var n :| n in NamesOf(held) * (set r | r in required);
      var j :| 0 <= j < |held| && held[j].name == n;
      var i :| 0 <= i < |required| && required[i] == n;
      assert held[j].name == required[i];
    }
  }

  // ---------------------------------------------------------------------
  // Phone numbers
  // ---------------------------------------------------------------------

  datatype PhoneError = InvalidPhoneFormat

  predicate IsDigit(c: char) { '0' <= c <= '9' }

  /** The characters `[0-9+]` that survive stripping (user.go:48). */
  predicate IsPhoneChar(c: char) { IsDigit(c) || c == '+' }

  predicate AllDigits(t: string) { forall i :: 0 <= i < |t| ==> IsDigit(t[i]) }

  predicate AllPhoneChars(t: string) { forall i :: 0 <= i < |t| ==> IsPhoneChar(t[i]) }

  /** The text with every character other than an ASCII digit or `+` deleted (user.go:48-49). */
  function StripPhone(s: string): (r: string)
    ensures |r| <= |s|
    ensures AllPhoneChars(r)
  {
    if s == [] then []
    else if IsPhoneChar(s[0]) then [s[0]] + StripPhone(s[1..])
    else StripPhone(s[1..])
  }

  /** The ASCII digits of a text, in order. */
  function DigitsOf(s: string): (r: string)
    ensures AllDigits(r)
  {
    if s == [] then []
    else if IsDigit(s[0]) then [s[0]] + DigitsOf(s[1..])
    else DigitsOf(s[1..])
  }

  /** The text after one optional leading `+`. */
  function AfterPlus(t: string): (r: string)
  {
    if |t| > 0 && t[0] == '+' then t[1..] else t
  }

  /** `^\+?[1-9]\d{1,14}$`: an optional `+`, a digit 1-9, then 1 to 14 digits (user.go:51). */
  predicate MatchesE164(t: string)
  {
    var b := AfterPlus(t);
    2 <= |b| <= 15 && '1' <= b[0] <= '9' && AllDigits(b)
  }

  /** The shape of a normalised number: `+`, a digit 1-9, then 1 to 14 more digits. */
  predicate IsFormattedPhone(p: string)
  {
    3 <= |p| <= 16 && p[0] == '+' && '1' <= p[1] <= '9' && AllDigits(p[1..])
  }

  /** formatPhoneNumber (user.go:47-60). */
  function FormatPhoneNumber(phone: string): (r: Result<string, PhoneError>)
    ensures r.Ok? ==> IsFormattedPhone(r.value)
  {
    var n := StripPhone(phone);
    if !MatchesE164(n) then Err(InvalidPhoneFormat)
    else if n[0] == '+' then Ok(n)
    else Ok("+" + n)
  }

  /** Stripping keeps each digit and `+` as often as it occurs and drops everything else. */
  lemma {:induction false} StripPhoneCounts(s: string, c: char)
    ensures multiset(StripPhone(s))[c] == if IsPhoneChar(c) then multiset(s)[c] else 0
  {
    if s != [] {
      StripPhoneCounts(s[1..], c);
      assert s == [s[0]] + s[1..];
    }
  }

  /** A text made only of digits and `+` is left as it is by stripping. */
  lemma {:induction false} StripPhoneFixes(t: string)
    requires AllPhoneChars(t)
    ensures StripPhone(t) == t
  {
    if t != [] {
      StripPhoneFixes(t[1..]);
    }
  }

  /** Stripping does not change which digits a text holds. */
  lemma {:induction false} StripPhoneKeepsDigits(s: string)
    ensures DigitsOf(StripPhone(s)) == DigitsOf(s)
  {
    if s != [] {
      StripPhoneKeepsDigits(s[1..]);
      if IsPhoneChar(s[0]) {
        assert StripPhone(s) == [s[0]] + StripPhone(s[1..]);
        assert StripPhone(s)[1..] == StripPhone(s[1..]);
      }
    }
  }

  lemma {:induction false} DigitsOfAllDigits(t: string)
    requires AllDigits(t)
    ensures DigitsOf(t) == t
  {
    if t != [] {
      DigitsOfAllDigits(t[1..]);
    }
  }

  /** A `+` somewhere after the first character. */
  predicate PlusAfterFront(t: string)
  {
    exists i :: 0 < i < |t| && t[i] == '+'
  }

  /** The first digit, after an optional `+`, is 0. */
  predicate LeadingZero(t: string)
  {
    |AfterPlus(t)| > 0 && AfterPlus(t)[0] == '0'
  }

  lemma AfterPlusDigits(t: string)
    requires AllPhoneChars(t) && !PlusAfterFront(t)
    ensures AllDigits(AfterPlus(t))
    ensures DigitsOf(t) == AfterPlus(t)
  {
    var b := AfterPlus(t);
    forall k | 0 <= k < |b|
      ensures IsDigit(b[k])
    {
      if |t| > 0 && t[0] == '+' {
        assert b[k] == t[k + 1];
      } else {
        assert b[k] == t[k];
        if k > 0 { assert t[k] != '+'; } else if t[0] == '+' { assert false; }
      }
    }
    DigitsOfAllDigits(b);
    if |t| > 0 && t[0] == '+' {
      assert t == ['+'] + b;
    }
  }

  /** Normalisation fails exactly when the stripped text is empty, carries a `+`
      after its front, starts (after an optional `+`) with 0, or has fewer than
      2 or more than 15 digits (user.go:51-53). */
  lemma FormatPhoneFailsIff(phone: string)
    ensures var t := StripPhone(phone);
      FormatPhoneNumber(phone).Err? <==>
        (t == [] || PlusAfterFront(t) || LeadingZero(t) || |DigitsOf(t)| < 2 || |DigitsOf(t)| > 15)
  {
    var t := StripPhone(phone);
    if !PlusAfterFront(t) {
      AfterPlusDigits(t);
    }
  }

  /** A successful normalisation is `+` followed by exactly the digits of the input. */
  lemma FormatPhoneKeepsDigits(phone: string)
    requires FormatPhoneNumber(phone).Ok?
    ensures FormatPhoneNumber(phone).value == "+" + DigitsOf(phone)
  {
    var t := StripPhone(phone);
    StripPhoneKeepsDigits(phone);
    FormatPhoneFailsIff(phone);
    AfterPlusDigits(t);
  }

  /** Normalising a normalised number returns it unchanged (user.go:55-59). */
  lemma FormatPhoneIdempotent(phone: string)
    requires FormatPhoneNumber(phone).Ok?
    ensures FormatPhoneNumber(FormatPhoneNumber(phone).value) == FormatPhoneNumber(phone)
  {
    var p := FormatPhoneNumber(phone).value;
    assert AllPhoneChars(p) by {
      forall k | 0 <= k < |p| ensures IsPhoneChar(p[k]) {
        if k > 0 { assert p[k] == p[1..][k - 1]; }
      }
    }
    StripPhoneFixes(p);
    assert AfterPlus(p) == p[1..];
  }

  // ---------------------------------------------------------------------
  // The entity
  // ---------------------------------------------------------------------

  /** The in-memory `User` struct that GORM loads, hands to the hooks and saves. */
  class User {
    var id: Uuid
    var email: string
    var phone: Option<string>
    var password: string
    var username: string
    var isEmailVerified: bool
    var permissions: seq<Permission>

    /** The row this struct would be saved as. */
    function Row(): (r: UserRow)
      reads this
    {
      UserRow(email, username, password, phone, isEmailVerified, permissions)
    }

    /** The struct GORM fills when it loads a row. */
    constructor FromRow(id: Uuid, row: UserRow)
      ensures this.id == id && Row() == row
    {
      this.id := id;
      email := row.email;
      phone := row.phone;
      password := row.password;
      username := row.username;
      isEmailVerified := row.isEmailVerified;
      permissions := row.permissions;
    }

    /** HasPermissions (user.go:35-45): true as soon as one required name is held. */
    method HasPermissions(required: seq<string>) returns (r: bool)
      ensures r == HoldsAnyOf(permissions, required)
    {
      for i := 0 to |required|
        invariant forall i', j :: 0 <= i' < i && 0 <= j < |permissions| ==> permissions[j].name != required[i']
      {
        for j := 0 to |permissions|
          invariant forall j' :: 0 <= j' < j ==> permissions[j'].name != required[i]
        {
          if permissions[j].name == required[i] {
            return true;
          }
        }
      }
      return false;
    }

    /** The shared body of the two hooks: a nil phone is left alone, otherwise it is
        replaced by its normalised form, or the error is returned and nothing changes. */
    method NormalizePhone() returns (err: Option<PhoneError>)
      modifies this`phone
      ensures old(phone).None? ==> err.None? && phone.None?
      ensures old(phone).Some? && FormatPhoneNumber(old(phone).value).Ok? ==>
                err.None? && phone == Some(FormatPhoneNumber(old(phone).value).value)
      ensures old(phone).Some? && FormatPhoneNumber(old(phone).value).Err? ==>
                err == Some(FormatPhoneNumber(old(phone).value).error) && phone == old(phone)
    {
      err := None;
      if phone.Some? {
        var formatted := FormatPhoneNumber(phone.value);
        if formatted.Err? {
          return Some(formatted.error);
        }
        phone := Some(formatted.value);
      }
    }

    /** BeforeCreate (user.go:62-71). */
    method BeforeCreate() returns (err: Option<PhoneError>)
      modifies this`phone
      ensures old(phone).None? ==> err.None? && phone.None?
      ensures old(phone).Some? && FormatPhoneNumber(old(phone).value).Ok? ==>
                err.None? && phone == Some(FormatPhoneNumber(old(phone).value).value)
      ensures old(phone).Some? && FormatPhoneNumber(old(phone).value).Err? ==>
                err == Some(FormatPhoneNumber(old(phone).value).error) && phone == old(phone)
    {
      err := NormalizePhone();
    }

    /** BeforeUpdate (user.go:73-82). */
    method BeforeUpdate() returns (err: Option<PhoneError>)
      modifies this`phone
      ensures old(phone).None? ==> err.None? && phone.None?
      ensures old(phone).Some? && FormatPhoneNumber(old(phone).value).Ok? ==>
                err.None? && phone == Some(FormatPhoneNumber(old(phone).value).value)
      ensures old(phone).Some? && FormatPhoneNumber(old(phone).value).Err? ==>
                err == Some(FormatPhoneNumber(old(phone).value).error) && phone == old(phone)
    {
      err := NormalizePhone();
    }
  }

  /** A stored phone that is already normalised: the hooks leave it as it is. */
  predicate PhoneNormalized(row: UserRow)
  {
    row.phone.Some? ==> FormatPhoneNumber(row.phone.value) == Ok(row.phone.value)
  }
}
