/** The user dashboard state (state/dashboard_state.py): a list of user records with an
    "add user" form handler and a computed total. */
module Dashboard {
  import opened Wrappers
  import opened Strs

  datatype User = User(name: string, age: int, role: string)

  /** The two users the page starts with. */
  const InitialUsers := [User("존 도", 30, "개발자"), User("제인 도", 28, "디자이너")]

  const NewUserRole := "신규 사용자"
  const EmptyFieldsAlert := "이름과 나이는 비워둘 수 없습니다!"

  /** `not form_data.get(k)`: the field is missing or empty. */
  predicate Missing(form: map<string, string>, k: string) {
    k !in form || form[k] == ""
  }

  function DigitValue(c: char): nat
    requires IsDigit(c)
  {
    c as nat - '0' as nat
  }

  /** The digits of a run without its underscores. */
  function DropUnderscores(s: string): (r: string)
    ensures |r| <= |s|
  {
    if s == [] then []
    else if s[|s| - 1] == '_' then DropUnderscores(s[..|s| - 1])
    else DropUnderscores(s[..|s| - 1]) + [s[|s| - 1]]
  }

  /** The value of a string of decimal digits, most significant first. */
  function DigitsValue(s: string): nat
    requires forall k :: 0 <= k < |s| ==> IsDigit(s[k])
  {
    if s == [] then 0 else DigitsValue(s[..|s| - 1]) * 10 + DigitValue(s[|s| - 1])
  }

  /** What `int()` accepts as a base-10 digit run: digits, with single underscores between them. */
  predicate IsDigitRun(s: string) {
    && s != []
    && IsDigit(s[0]) && IsDigit(s[|s| - 1])
    && (forall k :: 0 <= k < |s| ==> IsDigit(s[k]) || s[k] == '_')
    && (forall k :: 0 <= k < |s| - 1 ==> !(s[k] == '_' && s[k + 1] == '_'))
  }

  lemma {:induction false} DropUnderscoresDigits(s: string)
    requires forall k :: 0 <= k < |s| ==> IsDigit(s[k]) || s[k] == '_'
    ensures forall k :: 0 <= k < |DropUnderscores(s)| ==> IsDigit(DropUnderscores(s)[k])
  {
    if s != [] {
      DropUnderscoresDigits(s[..|s| - 1]);
    }
  }

  lemma {:induction false} DropUnderscoresOfDigits(s: string)
    requires forall k :: 0 <= k < |s| ==> IsDigit(s[k])
    ensures DropUnderscores(s) == s
  {
    if s != [] {
      DropUnderscoresOfDigits(s[..|s| - 1]);
    }
  }

  /** The value of a digit run, underscores dropped; anything else is rejected. */
  function ParseDigits(body: string): Result<nat> {
    if !IsDigitRun(body) then Err("invalid literal for int() with base 10")
    else
      DropUnderscoresDigits(body);
      Ok(DigitsValue(DropUnderscores(body)))
  }

  /** Python's `int(s)` for a string, base 10: surrounding whitespace, an optional sign, then a
      digit run; anything else is the `ValueError` the conversion raises. */
  function ParseInt(s: string): Result<int> {
    var t := Strip(s);
    var negative := t != [] && t[0] == '-';
    var body := if t != [] && (t[0] == '-' || t[0] == '+') then t[1..] else t;
    var n :- ParseDigits(body);
    var v: int := if negative then -(n as int) else n;
    Ok(v)
  }

  /** The decimal rendering of a number reads back as that number. */
  lemma {:induction false} DigitsValueOfNat(n: nat)
    ensures forall k :: 0 <= k < |NatToString(n)| ==> IsDigit(NatToString(n)[k])
    ensures DigitsValue(NatToString(n)) == n
  {
    NatToStringDigits(n);
    if n >= 10 {
      DigitsValueOfNat(n / 10);
      var s := NatToString(n);
      assert s[..|s| - 1] == NatToString(n / 10);
    }
  }

  /** `int(str(i)) == i`: parsing undoes rendering. */
  lemma ParseIntOfString(i: int)
    ensures ParseInt(IntToString(i)) == Ok(i)
  {
    if i < 0 {
      var m: nat := -i;
      var d := NatToString(m);
      assert IntToString(i) == "-" + d;
      ParseDigitsOfNat(m);
      ParseNegated(d);
    } else {
      ParseUnsigned(i);
    }
  }

  /** A digit run with its value, for the rendering of `n`. */
  lemma RenderedRun(n: nat)
    ensures IsDigitRun(NatToString(n))
    ensures forall k :: 0 <= k < |NatToString(n)| ==> IsDigit(NatToString(n)[k])
    ensures DropUnderscores(NatToString(n)) == NatToString(n)
    ensures DigitsValue(NatToString(n)) == n
  {
    NatToStringDigits(n);
    DropUnderscoresOfDigits(NatToString(n));
    DigitsValueOfNat(n);
  }

  lemma ParseDigitsOfNat(n: nat)
    ensures ParseDigits(NatToString(n)) == Ok(n)
  {
    RenderedRun(n);
  }

  lemma ParseUnsigned(n: nat)
    ensures ParseInt(NatToString(n)) == Ok(n)
  {
    var s := NatToString(n);
    RenderedRun(n);
    StripOfStripped(s);
    assert s[0] != '-' && s[0] != '+';
    ParseDigitsOfNat(n);
  }

  /** A minus sign in front of an accepted digit run negates its value. */
  lemma ParseNegated(d: string)
    requires ParseDigits(d).Ok?
    ensures ParseInt("-" + d) == Ok(-(ParseDigits(d).value as int))
  {
    var s := "-" + d;
    assert IsDigitRun(d);
    assert IsStripped(s) by {
      assert s[|s| - 1] == d[|d| - 1];
    }
    StripOfStripped(s);
    assert s[1..] == d;
  }

  /** Digit-group underscores are dropped. */
  lemma GroupedDigits()
    ensures ParseDigits("1_000") == Ok(1000)
  {
    var body := "1_000";
    assert IsDigitRun(body);
    assert DropUnderscores(body) == "1000" by {
      assert "1"[..0] == [];
      assert DropUnderscores("1") == "1";
      assert "1_"[..1] == "1";
      assert DropUnderscores("1_") == "1";
      assert "1_0"[..2] == "1_";
      assert DropUnderscores("1_0") == "10";
      assert "1_00"[..3] == "1_0";
      assert DropUnderscores("1_00") == "100";
      assert body[..4] == "1_00";
    }
    assert DigitsValue("1000") == 1000 by {
      assert "1000"[..3] == "100";
      assert "100"[..2] == "10";
      assert "10"[..1] == "1";
      assert "1"[..0] == [];
    }
  }

  /** Surrounding whitespace, a plus sign and digit-group underscores are accepted. */
  lemma ParseIntGrouped()
    ensures ParseInt(" +1_000 ") == Ok(1000)
  {
    var t := "+1_000";
    assert LeadingSpace(" +1_000 ") == 1;
    assert TrailingSpace(" +1_000 "[1..]) == 1;
    assert Strip(" +1_000 ") == t;
    assert t[1..] == "1_000";
    GroupedDigits();
  }

  /** A doubled underscore is rejected. */
  lemma ParseIntDoubleUnderscore()
    ensures ParseInt("1__0").Err?
  {
    StripOfStripped("1__0");
    assert !IsDigitRun("1__0") by { assert "1__0"[1] == '_' && "1__0"[2] == '_'; }
  }

  /** An empty or blank age is rejected. */
  lemma ParseIntBlank(s: string)
    requires IsBlank(s)
    ensures ParseInt(s).Err?
  {
    StripEmptyIffBlank(s);
  }

  class DashboardState {
    var users: seq<User>

    constructor()
      ensures users == InitialUsers
    {
      users := InitialUsers;
    }

    /** `total_users` */
    function TotalUsers(): nat
      reads this
    {
      |users|
    }

    /** `add_user`. A missing or empty name or age gives the alert and changes nothing; an age
        `int()` rejects raises before the list is touched; otherwise exactly one record is
        appended, so the total grows by one. */
    method AddUser(form: map<string, string>) returns (r: Result<Option<string>>)
      modifies this
      ensures Missing(form, "name") || Missing(form, "age") ==>
        r == Ok(Some(EmptyFieldsAlert)) && users == old(users)
      ensures !Missing(form, "name") && !Missing(form, "age") ==>
        match ParseInt(form["age"])
        case Err(e) => r == Err(e) && users == old(users)
        case Ok(age) =>
          && r == Ok(None)
          && users == old(users) + [User(form["name"], age, NewUserRole)]
          && TotalUsers() == old(TotalUsers()) + 1
    {
      if Missing(form, "name") || Missing(form, "age") {
        return Ok(Some(EmptyFieldsAlert));
      }
      match ParseInt(form["age"]) {
        case Err(e) =>
          return Err(e);
        case Ok(age) =>
          users := users + [User(form["name"], age, NewUserRole)];
          return Ok(None);
      }
    }
  }
}
