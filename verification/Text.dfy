/** String building shared by the configuration generators and the Deployment builder. */
module Text {

  function UpperChar(c: char): char {
    if 'a' <= c <= 'z' then (c as int - 'a' as int + 'A' as int) as char else c
  }

  /** strings.ToUpper on ASCII text. */
  function Upper(s: string): (r: string) {
    seq(|s|, i requires 0 <= i < |s| => UpperChar(s[i]))
  }

  /** strings.ReplaceAll(s, "-", "_"). */
  function Underscored(s: string): (r: string) {
    seq(|s|, i requires 0 <= i < |s| => if s[i] == '-' then '_' else s[i])
  }

  function EnvName(s: string): (r: string) { Upper(Underscored(s)) }

  function Placeholder(variable: string): string { "${" + variable + "}" }

  function ApiKeyVar(provider: string): string { EnvName(provider) + "_API_KEY" }
  function BotTokenVar(channelType: string): string { Upper(channelType) + "_BOT_TOKEN" }
  function AppTokenVar(channelType: string): string { Upper(channelType) + "_APP_TOKEN" }
  function PeerTokenVar(peer: string): string { "PEER_" + EnvName(peer) + "_TOKEN" }
  const A2A_TOKEN_VAR := "A2A_TOKEN"

  /** A name made of lower-case letters, digits and hyphens. */
  predicate IsLabel(s: string) {
    forall i :: 0 <= i < |s| ==> 'a' <= s[i] <= 'z' || '0' <= s[i] <= '9' || s[i] == '-'
  }

  lemma EnvNameInjective(s: string, t: string)
    requires IsLabel(s) && IsLabel(t)
    requires EnvName(s) == EnvName(t)
    ensures s == t
  {
    assert |s| == |EnvName(s)| == |EnvName(t)| == |t|;
    forall i | 0 <= i < |s| ensures s[i] == t[i] {
      assert EnvName(s)[i] == EnvName(t)[i];
      assert Underscored(s)[i] == (if s[i] == '-' then '_' else s[i]);
      assert Underscored(t)[i] == (if t[i] == '-' then '_' else t[i]);
    }
  }

  /** Two peers with label names never share an environment variable. */
  lemma PeerTokenVarInjective(s: string, t: string)
    requires IsLabel(s) && IsLabel(t)
    requires PeerTokenVar(s) == PeerTokenVar(t)
    ensures s == t
  {
    assert PeerTokenVar(s)[5..|PeerTokenVar(s)| - 6] == EnvName(s);
    assert PeerTokenVar(t)[5..|PeerTokenVar(t)| - 6] == EnvName(t);
    EnvNameInjective(s, t);
  }

  /** Outside labels the variable is shared: an underscore collides with a hyphen. */
  lemma PeerTokenVarCollides()
    ensures PeerTokenVar("a-b") == PeerTokenVar("a_b")
  {
    assert EnvName("a-b") == "A_B";
    assert EnvName("a_b") == "A_B";
  }

  lemma PlaceholderInjective(v: string, w: string)
    requires Placeholder(v) == Placeholder(w)
    ensures v == w
  {
    assert Placeholder(v)[2..|Placeholder(v)| - 1] == v;
    assert Placeholder(w)[2..|Placeholder(w)| - 1] == w;
  }

  function Digit(n: nat): char
    requires n < 10
  {
    ('0' as int + n) as char
  }

  function Decimal(n: int): (r: string)
    decreases n < 0, if n < 0 then -n else n
  {
    if n < 0 then "-" + Decimal(-n)
    else if n < 10 then [Digit(n)]
    else Decimal(n / 10) + [Digit(n % 10)]
  }

  predicate IsDigit(c: char) { '0' <= c <= '9' }

  /** Reads a decimal number the usual way, digit by digit. */
  function ReadDigits(s: string): nat
    requires forall i :: 0 <= i < |s| ==> IsDigit(s[i])
  {
    if s == [] then 0
    else
      assert IsDigit(s[|s| - 1]);
      10 * ReadDigits(s[..|s| - 1]) + (s[|s| - 1] as int - '0' as int)
  }

  /** A rendered number reads back as itself, with a sign iff it is negative. */
  lemma {:induction false} DecimalReadsBack(n: int)
    ensures n >= 0 ==> |Decimal(n)| > 0 && (forall i :: 0 <= i < |Decimal(n)| ==> IsDigit(Decimal(n)[i]))
                       && ReadDigits(Decimal(n)) == n
    ensures n < 0 ==> Decimal(n) == "-" + Decimal(-n)
    decreases if n < 0 then 0 else n
  {
    if n >= 10 {
      DecimalReadsBack(n / 10);
      var s := Decimal(n);
      assert s[..|s| - 1] == Decimal(n / 10) && s[|s| - 1] == Digit(n % 10);
    } else if n >= 0 {
      assert Decimal(n) == [Digit(n)] && [Digit(n)][..0] == [];
    }
  }
}
