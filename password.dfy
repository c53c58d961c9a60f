/** `pwdEncode` of index.php (lines 219-230): the value written to the
    Active Directory `unicodePwd` attribute. The password is put between
    double quotes and every byte is followed by a NUL byte, which for ASCII
    input is the UTF-16LE encoding of the quoted password. Bytes are modelled
    as characters below U+0100. */
module Password {
  import opened Wrappers

  const NUL: char := '\0'
  const QUOTE: char := '"'

  /** Each character followed by a NUL. */
  function Widen(s: string): (w: string)
    ensures |w| == 2 * |s|
    ensures forall i :: 0 <= i < |s| ==> w[2 * i] == s[i] && w[2 * i + 1] == NUL
  {
    if s == [] then []
    else
      var rest := Widen(s[1..]);
      assert forall i :: 1 <= i < |s| ==> 2 * i == 2 * (i - 1) + 2;
      [s[0], NUL] + rest
  }

  /** The encoded attribute value: the quoted password, widened. */
  function UnicodePwd(pwd: string): (w: string)
    ensures |w| == 2 * (|pwd| + 2)
    ensures w[0] == QUOTE && w[2 * (|pwd| + 1)] == QUOTE
    ensures forall i :: 0 <= i < |pwd| ==> w[2 * (i + 1)] == pwd[i]
    ensures forall i :: 0 <= i < |pwd| + 2 ==> w[2 * i + 1] == NUL
  {
    var q := [QUOTE] + pwd + [QUOTE];
    assert forall i :: 0 <= i < |pwd| ==> q[i + 1] == pwd[i];
    Widen(q)
  }

  lemma {:induction false} WidenSnoc(s: string, c: char)
    ensures Widen(s + [c]) == Widen(s) + [c, NUL]
    decreases |s|
  {
    if s != [] {
      assert (s + [c])[1..] == s[1..] + [c];
      WidenSnoc(s[1..], c);
    }
  }

  /** `pwdEncode($pwd)`: the loop at index.php:224-226 appends one byte and a
      NUL per iteration. */
  method PwdEncode(pwd: string) returns (r: string)
    ensures r == UnicodePwd(pwd)
  {
    var q := [QUOTE] + pwd + [QUOTE];
    var len := |q|;
    r := "";
    var i := 0;
    while i < len
      invariant 0 <= i <= len
      invariant r == Widen(q[..i])
    {
      assert q[..i + 1] == q[..i] + [q[i]];
      WidenSnoc(q[..i], q[i]);
      r := r + [q[i], NUL];
      i := i + 1;
    }
    assert q[..len] == q;
  }

  /** Inverse of Widen: the even positions, provided every odd one is a NUL. */
  function Narrow(w: string): (r: Option<string>)
    ensures r.Some? ==> |w| == 2 * |r.value|
  {
    if |w| == 0 then Some([])
    else if |w| == 1 || w[1] != NUL then None
    else
      match Narrow(w[2..])
      case None => None
      case Some(s) => Some([w[0]] + s)
  }

  /** Decodes an attribute value back to the password it carries. */
  function PwdDecode(w: string): Option<string> {
    match Narrow(w)
    case None => None
    case Some(q) =>
      if |q| >= 2 && q[0] == QUOTE && q[|q| - 1] == QUOTE then Some(q[1..|q| - 1]) else None
  }

  lemma {:induction false} NarrowWiden(s: string)
    ensures Narrow(Widen(s)) == Some(s)
    decreases |s|
  {
    if s != [] {
      var w := Widen(s);
      assert w == [s[0], NUL] + Widen(s[1..]);
      assert w[2..] == Widen(s[1..]);
      NarrowWiden(s[1..]);
      assert s == [s[0]] + s[1..];
    }
  }

  /** Taking the even positions and dropping the quotes recovers the password. */
  lemma PwdRoundTrip(pwd: string)
    ensures PwdDecode(UnicodePwd(pwd)) == Some(pwd)
  {
    var q := [QUOTE] + pwd + [QUOTE];
    NarrowWiden(q);
    assert q[1..|q| - 1] == pwd;
  }

  /** The encoding of "Ab1": five characters, ten bytes. */
  lemma PwdEncodeExample()
    ensures UnicodePwd("Ab1") == ['"', NUL, 'A', NUL, 'b', NUL, '1', NUL, '"', NUL]
  {
    var w := UnicodePwd("Ab1");
    assert w[4] == 'b' && w[6] == '1';
  }
}
