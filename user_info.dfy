/** get_user_info_str: the user description sent to the contact chat. */
module UserInfo {
  import opened Transport
  import opened Updates

  function DigitChar(d: nat): char
    requires d < 10
  {
    "0123456789"[d]
  }

  /** Decimal digits of a natural number, as Python's str() prints it. */
  function NatToDecimal(n: nat): (s: string)
    ensures |s| > 0
    ensures forall i | 0 <= i < |s| :: '0' <= s[i] <= '9'
    decreases n
  {
    if n < 10 then [DigitChar(n)] else NatToDecimal(n / 10) + [DigitChar(n % 10)]
  }

  /** Python's str() of an int. */
  function IntToDecimal(n: int): string
  {
    if n < 0 then "-" + NatToDecimal(-n) else NatToDecimal(n)
  }

  /** An f-string field of an optional string: None prints as "None". */
  function OptionText(o: Option<string>): string
  {
    if o.Some? then o.value else "None"
  }

  predicate EndsWith(s: string, t: string)
  {
    |t| <= |s| && s[|s| - |t|..] == t
  }

  /** The three lines every description has: id, full name, language code. */
  function InfoHead(u: User): string
  {
    "id: " + IntToDecimal(u.id) + "\nfull name: " + u.fullName
  }

  /** The description: id, full name and language code, and a fourth line
      "link: @<username>" exactly when the user has a username. */
  function GetUserInfoStr(u: User): string
  {
    var info := InfoHead(u) + "\nlanguage code: " + OptionText(u.languageCode);
    if u.username.Some? then info + "\nlink: @" + u.username.value else info
  }

  /** The description starts with the id line and ends with the link line when the user has a
      username, with the language-code line otherwise. */
  lemma UserInfoShape(u: User)
    ensures "id: " + IntToDecimal(u.id) <= GetUserInfoStr(u)
    ensures u.username.Some? ==> EndsWith(GetUserInfoStr(u), "\nlink: @" + u.username.value)
    ensures u.username.None? ==> EndsWith(GetUserInfoStr(u), "\nlanguage code: " + OptionText(u.languageCode))
  {
    var id := "id: " + IntToDecimal(u.id);
    var lang := "\nlanguage code: " + OptionText(u.languageCode);
    var base := InfoHead(u) + lang;
    assert InfoHead(u) == id + ("\nfull name: " + u.fullName);
    assert base == id + ("\nfull name: " + u.fullName + lang);
    if u.username.Some? {
      var link := "\nlink: @" + u.username.value;
      assert GetUserInfoStr(u) == base + link;
      assert (base + link)[|base|..] == link;
      assert GetUserInfoStr(u) == id + ("\nfull name: " + u.fullName + lang + link);
    } else {
      assert GetUserInfoStr(u) == InfoHead(u) + lang;
      assert (InfoHead(u) + lang)[|InfoHead(u)|..] == lang;
    }
  }

  predicate IsDigits(s: string)
  {
    forall i | 0 <= i < |s| :: '0' <= s[i] <= '9'
  }

  /** The value of a run of decimal digits, most significant first. */
  function DecimalValue(s: string): nat
    requires IsDigits(s)
    decreases |s|
  {
    if s == [] then 0 else DecimalValue(s[..|s| - 1]) * 10 + (s[|s| - 1] as int - '0' as int)
  }

  /** Reads back what IntToDecimal prints: an optional minus sign and at least one digit. */
  function ParseInt(s: string): Option<int>
  {
    if |s| > 1 && s[0] == '-' && IsDigits(s[1..]) then Some(-(DecimalValue(s[1..]) as int))
    else if |s| > 0 && s[0] != '-' && IsDigits(s) then Some(DecimalValue(s))
    else None
  }

  lemma {:induction false} DecimalRoundTrip(n: nat)
    ensures DecimalValue(NatToDecimal(n)) == n
    decreases n
  {
    var s := NatToDecimal(n);
    if n < 10 {
      assert s[..|s| - 1] == [];
    } else {
      assert s[..|s| - 1] == NatToDecimal(n / 10);
      DecimalRoundTrip(n / 10);
    }
  }

  lemma IntRoundTrip(n: int)
    ensures ParseInt(IntToDecimal(n)) == Some(n)
  {
    var d := if n < 0 then NatToDecimal(-n) else NatToDecimal(n);
    assert IsDigits(d) && d[0] != '-';
    DecimalRoundTrip(if n < 0 then -n else n);
    if n < 0 {
      assert IntToDecimal(n) == "-" + d;
      assert IntToDecimal(n)[1..] == d;
    }
  }

  /** The first line of a text: everything before its first line break. */
  function FirstLine(s: string): string
  {
    if s == [] || s[0] == '\n' then [] else [s[0]] + FirstLine(s[1..])
  }

  lemma {:induction false} FirstLineBeforeBreak(a: string, b: string)
    requires '\n' !in a
    ensures FirstLine(a + "\n" + b) == a
    decreases |a|
  {
    var s := a + "\n" + b;
    if a != [] {
      assert s[1..] == a[1..] + "\n" + b;
      FirstLineBeforeBreak(a[1..], b);
      assert [a[0]] + a[1..] == a;
    }
  }

  /** What a reader of the contact chat takes as the user's id: the number after "id: " on
      the description's first line. */
  function IdOf(info: string): Option<int>
  {
    var l := FirstLine(info);
    if |l| >= 4 && l[..4] == "id: " then ParseInt(l[4..]) else None
  }

  /** The id line carries the user's id: printed in decimal it holds no line break, so the first
      line of every description reads back as exactly that id. */
  lemma IdRecoverable(u: User)
    ensures IdOf(GetUserInfoStr(u)) == Some(u.id)
  {
    var id := "id: " + IntToDecimal(u.id);
    var rest := "full name: " + u.fullName + "\nlanguage code: " + OptionText(u.languageCode)
                + (if u.username.Some? then "\nlink: @" + u.username.value else "");
    assert GetUserInfoStr(u) == id + "\n" + rest;
    assert '\n' !in id by {
      var d := if u.id < 0 then NatToDecimal(-u.id) else NatToDecimal(u.id);
      assert forall i | 0 <= i < |d| :: d[i] != '\n';
    }
    FirstLineBeforeBreak(id, rest);
    assert id[4..] == IntToDecimal(u.id);
    IntRoundTrip(u.id);
  }

  /** The last line of a text: everything after its last line break. */
  function LastLine(s: string): (l: string)
    decreases |s|
  {
    if s == [] then []
    else if s[|s| - 1] == '\n' then []
    else LastLine(s[..|s| - 1]) + [s[|s| - 1]]
  }

  lemma {:induction false} LastLineAfterBreak(a: string, b: string)
    requires '\n' !in b
    ensures LastLine(a + "\n" + b) == b
    decreases |b|
  {
    var s := a + "\n" + b;
    if b == [] {
      assert s[|s| - 1] == '\n';
    } else {
      var b' := b[..|b| - 1];
      assert s[..|s| - 1] == a + "\n" + b';
      assert s[|s| - 1] == b[|b| - 1];
      LastLineAfterBreak(a, b');
      assert b' + [b[|b| - 1]] == b;
    }
  }

  /** What a reader of the contact chat takes as the user's handle: the text after
      "link: @" when the description's last line starts with it. */
  function LinkOf(info: string): Option<string>
  {
    var l := LastLine(info);
    if |l| >= 7 && l[..7] == "link: @" then Some(l[7..]) else None
  }

  /** The link line appears exactly when the user has a username, and it carries that
      username, as long as neither the username nor the language code holds a line break. */
  lemma UsernameRecoverable(u: User)
    requires u.username.Some? ==> '\n' !in u.username.value
    requires '\n' !in OptionText(u.languageCode)
    ensures LinkOf(GetUserInfoStr(u)) == u.username
  {
    var lang := "language code: " + OptionText(u.languageCode);
    var base := InfoHead(u) + "\n" + lang;
    assert InfoHead(u) + "\nlanguage code: " + OptionText(u.languageCode) == base;
    if u.username.Some? {
      var link := "link: @" + u.username.value;
      assert GetUserInfoStr(u) == base + "\n" + link;
      LastLineAfterBreak(base, link);
      assert link[..7] == "link: @" && link[7..] == u.username.value;
    } else {
      assert GetUserInfoStr(u) == base;
      LastLineAfterBreak(InfoHead(u), lang);
      assert lang[..7] == "languag";
    }
  }
}
