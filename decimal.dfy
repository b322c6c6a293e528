/** Decimal rendering of unsigned integers, as Rust's `{}` formats a `u16`,
    and the socket-address text `"<host_ip>:<host_port>"` built from it. */
module Decimal {

  predicate IsDigit(c: char)
  {
    '0' <= c <= '9'
  }

  predicate IsDigits(s: string)
  {
    forall i :: 0 <= i < |s| ==> IsDigit(s[i])
  }

  function DigitChar(d: nat): (c: char)
    requires d < 10
    ensures IsDigit(c)
  {
    (d + '0' as int) as char
  }

  function DigitValue(c: char): (d: nat)
    requires IsDigit(c)
    ensures d < 10
  {
    c as int - '0' as int
  }

  /** The decimal digits of `n`: never empty, digits only, and without a
      leading zero unless `n` is zero. */
  function Render(n: nat): (s: string)
    ensures |s| > 0 && IsDigits(s)
    ensures s[0] == '0' ==> n == 0
    decreases n
  {
    if n < 10 then [DigitChar(n)] else Render(n / 10) + [DigitChar(n % 10)]
  }

  /** The value a string of decimal digits denotes. */
  function ValueOf(s: string): nat
    requires IsDigits(s)
  {
    if s == [] then 0 else ValueOf(s[..|s| - 1]) * 10 + DigitValue(s[|s| - 1])
  }

  /** Reading back the rendering of `n` gives `n`. */
  lemma {:induction false} ValueOfRender(n: nat)
    ensures ValueOf(Render(n)) == n
    decreases n
  {
    if n >= 10 {
      var s := Render(n);
      ValueOfRender(n / 10);
      assert s[..|s| - 1] == Render(n / 10);
      assert DigitValue(s[|s| - 1]) == n % 10;
    }
  }

  /** Distinct numbers render to distinct texts. */
  lemma RenderInjective(m: nat, n: nat)
    requires Render(m) == Render(n)
    ensures m == n
  {
    ValueOfRender(m);
    ValueOfRender(n);
  }

  /** The text handed to the socket-address parser for one record: the host
      IP text, a colon, and the host port in decimal. */
  function AddressText(ip: string, port: nat): (s: string)
    ensures |s| == |ip| + 1 + |Render(port)|
    ensures s[..|ip|] == ip && s[|ip|] == ':' && s[|ip| + 1..] == Render(port)
  {
    ip + ":" + Render(port)
  }

  /** The colon before the port is the last one in the address text, so the
      text determines both the host IP text (which may itself hold colons, as
      an IPv6 address does) and the port. */
  lemma AddressTextInjective(ip1: string, p1: nat, ip2: string, p2: nat)
    requires AddressText(ip1, p1) == AddressText(ip2, p2)
    ensures ip1 == ip2 && p1 == p2
  {
    var s := AddressText(ip1, p1);
    var d1, d2 := Render(p1), Render(p2);
    // a longer port text would put the other text's colon among its digits
    assert |d1| == |d2|;
    assert ip1 == s[..|ip1|] == ip2;
    assert d1 == s[|ip1| + 1..] == d2;
    RenderInjective(p1, p2);
  }
}
