/** Python's `strip`, and lists of stripped strings. */
module Text {

  /** What Python's `str.isspace` accepts. */
  predicate IsSpace(c: char) {
    var n := c as int;
    || 9 <= n <= 13 || 28 <= n <= 32 || n == 0x85 || n == 0xA0 || n == 0x1680 || 0x2000 <= n <= 0x200A
    || n == 0x2028 || n == 0x2029 || n == 0x202F || n == 0x205F || n == 0x3000
  }

  function StripLeft(s: string): string {
    if s != "" && IsSpace(s[0]) then StripLeft(s[1..]) else s
  }

  function StripRight(s: string): string {
    if s != "" && IsSpace(s[|s| - 1]) then StripRight(s[..|s| - 1]) else s
  }

  function Strip(s: string): string {
    StripRight(StripLeft(s))
  }

  /** Stripping takes white space, and only that, from both ends, as far as it goes. */
  lemma StripTakes(s: string) returns (a: nat, b: nat)
    ensures a <= b <= |s| && Strip(s) == s[a..b]
    ensures forall i :: 0 <= i < |s| && !(a <= i < b) ==> IsSpace(s[i])
    ensures a < b ==> !IsSpace(s[a]) && !IsSpace(s[b - 1])
  {
    hide IsSpace;
    a := LeftTakes(s);
    var n := RightTakes(s[a..]);
    b := a + n;
    assert s[a..][..n] == s[a..b];
    forall i | b <= i < |s| ensures IsSpace(s[i]) {
      assert s[i] == s[a..][i - a];
    }
  }

  lemma {:induction false} LeftTakes(s: string) returns (a: nat)
    ensures a <= |s| && StripLeft(s) == s[a..]
    ensures (forall i :: 0 <= i < a ==> IsSpace(s[i])) && (a < |s| ==> !IsSpace(s[a]))
  {
    hide IsSpace;
    if s != "" && IsSpace(s[0]) {
      var n := LeftTakes(s[1..]);
      a := n + 1;
      assert s[1..][n..] == s[a..];
      forall i | 0 <= i < a ensures IsSpace(s[i]) {
        assert i > 0 ==> s[i] == s[1..][i - 1];
      }
    } else {
      a := 0;
    }
  }

  lemma {:induction false} RightTakes(s: string) returns (b: nat)
    ensures b <= |s| && StripRight(s) == s[..b]
    ensures (forall i :: b <= i < |s| ==> IsSpace(s[i])) && (b > 0 ==> !IsSpace(s[b - 1]))
  {
    hide IsSpace;
    if s != "" && IsSpace(s[|s| - 1]) {
      b := RightTakes(s[..|s| - 1]);
    } else {
      b := |s|;
    }
  }

  /** Among the ASCII characters, white space is the blank, tab to carriage return, and the four separators. */
  lemma WhiteSpace(c: char)
    ensures c as int < 128 ==> (IsSpace(c) <==> c == ' ' || '\t' <= c <= '\r' || c as int in {28, 29, 30, 31})
  {
  }

  /** The items, stripped, without the blank ones. */
  function NonBlank(items: seq<string>): seq<string> {
    if items == [] then []
    else (if Strip(items[0]) == "" then [] else [Strip(items[0])]) + NonBlank(items[1..])
  }

  lemma {:induction false} InNonBlank(items: seq<string>, value: string)
    ensures value in NonBlank(items) <==> value != "" && exists i :: 0 <= i < |items| && Strip(items[i]) == value
  {
    hide Strip;
    if items == [] {
    } else {
      InNonBlank(items[1..], value);
      assert forall i :: 0 < i < |items| ==> items[i] == items[1..][i - 1];
      assert forall i :: 0 <= i < |items[1..]| ==> items[1..][i] == items[i + 1];
    }
  }

  lemma {:induction false} NonBlankConcat(a: seq<string>, b: seq<string>)
    ensures NonBlank(a + b) == NonBlank(a) + NonBlank(b)
  {
    hide Strip;
    if a == [] {
      assert a + b == b;
    } else {
      assert (a + b)[1..] == a[1..] + b;
      NonBlankConcat(a[1..], b);
    }
  }

  /** Whether a part stands somewhere in a text. */
  predicate Contains(s: string, part: string) {
    part <= s || (s != "" && Contains(s[1..], part))
  }

  lemma {:induction false} ContainsIff(s: string, part: string)
    ensures Contains(s, part) <==> exists a, b :: s == a + part + b
  {
    if part <= s {
      assert s == "" + part + s[|part|..];
    } else if s != "" {
      ContainsIff(s[1..], part);
      if a, b :| s[1..] == a + part + b {
        assert s == [s[0]] + a + part + b;
      }
      if a, b :| s == a + part + b {
        assert a != "";
        assert s[1..] == a[1..] + part + b;
      }
    }
  }
}
