/**
 * `History.description` of Sources/Converse/ContentBlocks/History.swift:
 * a header with the number of turns, then each message's own description on
 * a line of its own. A message's description is not part of this model; it is
 * passed in as `show`.
 */
module HistoryText {
  import opened Content

  function DigitChar(d: nat): (c: char)
    requires d < 10
    ensures '0' <= c <= '9'
    ensures c as int - '0' as int == d
  {
    "0123456789"[d]
  }

  /** The decimal digits of `n`, as string interpolation writes an `Int`. */
  function NatToString(n: nat): (s: string)
    ensures 0 < |s|
    ensures forall i :: 0 <= i < |s| ==> '0' <= s[i] <= '9'
  {
    if n < 10 then [DigitChar(n)] else NatToString(n / 10) + [DigitChar(n % 10)]
  }

  /** The number a string of decimal digits spells, most significant digit first. */
  function DecimalValue(s: string): nat
    requires forall i :: 0 <= i < |s| ==> '0' <= s[i] <= '9'
  {
    if s == [] then 0 else 10 * DecimalValue(s[..|s| - 1]) + (s[|s| - 1] as int - '0' as int)
  }

  /** The digits spell `n`, with no leading zero unless `n` is zero. */
  lemma {:induction false} NatToStringSpellsValue(n: nat)
    ensures DecimalValue(NatToString(n)) == n
    ensures NatToString(n)[0] == '0' ==> n == 0
  {
    if n >= 10 {
      NatToStringSpellsValue(n / 10);
      var s := NatToString(n);
      assert s[..|s| - 1] == NatToString(n / 10);
    }
  }

  /** `"<count> turns:\n"`. */
  function Header(count: nat): string {
    NatToString(count) + " turns:\n"
  }

  /** Each message's description followed by a newline, in history order. */
  function Lines(h: History, show: Message -> string): string {
    if h == [] then "" else Lines(h[..|h| - 1], show) + show(h[|h| - 1]) + "\n"
  }

  /** The description as a whole. */
  function Description(h: History, show: Message -> string): (s: string)
    ensures Header(|h|) <= s
  {
    Header(|h|) + Lines(h, show)
  }

  /** The computed property: `var result` grows by one line per message of the loop. */
  method Describe(h: History, show: Message -> string) returns (result: string)
    ensures result == Description(h, show)
  {
    result := NatToString(|h|) + " turns:\n";
    for i := 0 to |h|
      invariant result == Header(|h|) + Lines(h[..i], show)
    {
      assert h[..i + 1][..i] == h[..i];
      result := result + show(h[i]) + "\n";
    }
    assert h[..|h|] == h;
  }

  /** The lines of two histories in a row are the lines of the first, then of the second. */
  lemma {:induction false} LinesAppend(a: History, b: History, show: Message -> string)
    ensures Lines(a + b, show) == Lines(a, show) + Lines(b, show)
    decreases |b|
  {
    if b == [] {
      assert a + b == a;
    } else {
      var b' := b[..|b| - 1];
      assert (a + b)[..|a + b| - 1] == a + b';
      LinesAppend(a, b', show);
    }
  }

  /** Read from the front: the first message's line comes first. */
  lemma LinesFromFront(h: History, show: Message -> string)
    requires h != []
    ensures Lines(h, show) == show(h[0]) + "\n" + Lines(h[1..], show)
  {
    assert h == [h[0]] + h[1..];
    LinesAppend([h[0]], h[1..], show);
    assert Lines([h[0]], show) == show(h[0]) + "\n";
  }

  /** The output begins with the header and holds one line per message. */
  lemma {:induction false} DescriptionShape(h: History, show: Message -> string)
    ensures Description(h, show)[|Description(h, show)| - 1] == '\n'
    ensures |Lines(h, show)| >= |h|
  {
    if h != [] {
      DescriptionShape(h[..|h| - 1], show);
    }
  }

  /** An empty history is described as exactly `"0 turns:\n"`. */
  lemma EmptyHistory(show: Message -> string)
    ensures Description([], show) == "0 turns:\n"
  {
  }
}
