/** String building shared by both SQL dialects: joining with a separator
    (`string.Join`), the loop form of a join, decimal rendering of the clock
    ticks (`long.ToString()`), and splitting on a one-character separator. */
module Text {

  /** `Environment.NewLine`, as appended by `StringBuilder.AppendLine`. */
  const NewLine: string := "\n"

  /** `string.Join(sep, items)`: the items in order with `sep` between neighbours. */
  function Join(sep: string, items: seq<string>): string
    decreases |items|
  {
    if |items| == 0 then ""
    else if |items| == 1 then items[0]
    else items[0] + sep + Join(sep, items[1..])
  }

  /** What a loop produces that appends `item + sep` for every item. */
  function Terminated(sep: string, items: seq<string>): string
    decreases |items|
  {
    if |items| == 0 then ""
    else Terminated(sep, items[..|items| - 1]) + items[|items| - 1] + sep
  }

  /** `Select(f)` over a list of strings. */
  function Map(f: string -> string, xs: seq<string>): (r: seq<string>)
    ensures |r| == |xs|
    ensures forall i :: 0 <= i < |xs| ==> r[i] == f(xs[i])
  {
    if xs == [] then [] else [f(xs[0])] + Map(f, xs[1..])
  }

  /** Joining two non-empty lists is joining each and putting one separator between. */
  lemma {:induction false} JoinAppend(sep: string, a: seq<string>, b: seq<string>)
    requires |a| > 0 && |b| > 0
    ensures Join(sep, a + b) == Join(sep, a) + sep + Join(sep, b)
    decreases |a|
  {
    if |a| == 1 {
      assert (a + b)[1..] == b;
    } else {
      assert (a + b)[1..] == a[1..] + b;
      JoinAppend(sep, a[1..], b);
    }
  }

  /** A loop that appends `item + sep` to all items but the last and the bare
      last item produces exactly the join. */
  lemma {:induction false} TerminatedThenLast(sep: string, items: seq<string>, last: string)
    ensures Terminated(sep, items) + last == Join(sep, items + [last])
    decreases |items|
  {
    if |items| == 0 {
      assert items + [last] == [last];
    } else {
      var init := items[..|items| - 1];
      var x := items[|items| - 1];
      assert items == init + [x];
      TerminatedThenLast(sep, init, x);
      JoinAppend(sep, items, [last]);
    }
  }

  /** One more step of the loop: appending `item + sep` for the next item. */
  lemma TerminatedStep(sep: string, items: seq<string>, i: nat)
    requires i < |items|
    ensures Terminated(sep, items[..i + 1]) == Terminated(sep, items[..i]) + items[i] + sep
  {
    assert items[..i + 1][..i] == items[..i];
  }

  /** The loop's last step appends the bare last item and completes the join. */
  lemma TerminatedThenLastItem(sep: string, items: seq<string>)
    requires |items| > 0
    ensures Terminated(sep, items[..|items| - 1]) + items[|items| - 1] == Join(sep, items)
  {
    TerminatedThenLast(sep, items[..|items| - 1], items[|items| - 1]);
    assert items[..|items| - 1] + [items[|items| - 1]] == items;
  }

  lemma AppendAssociates(a: string, b: string, c: string)
    ensures (a + b) + c == a + (b + c)
  {
  }

  lemma MapAppend(f: string -> string, a: seq<string>, b: seq<string>)
    ensures Map(f, a + b) == Map(f, a) + Map(f, b)
  {
  }

  // ---------------------------------------------------------------------------
  // Decimal rendering of a non-negative tick count

  predicate IsDigits(s: string)
  {
    forall i :: 0 <= i < |s| ==> '0' <= s[i] <= '9'
  }

  function DigitChar(d: nat): (c: char)
    requires d < 10
    ensures '0' <= c <= '9'
    ensures (c as int) - ('0' as int) == d
  {
    ('0' as int + d) as char
  }

  /** `long.ToString()` for a non-negative value: decimal digits, no sign, no
      leading zeros. */
  function NatToString(n: nat): (s: string)
    ensures |s| > 0 && IsDigits(s)
    ensures |s| > 1 ==> s[0] != '0'
    decreases n
  {
    if n < 10 then [DigitChar(n)] else NatToString(n / 10) + [DigitChar(n % 10)]
  }

  /** The value of a string of decimal digits. */
  function ParseDecimal(s: string): nat
    requires IsDigits(s)
    decreases |s|
  {
    if |s| == 0 then 0
    else 10 * ParseDecimal(s[..|s| - 1]) + ((s[|s| - 1] as int) - ('0' as int))
  }

  lemma {:induction false} ParseNatToString(n: nat)
    ensures ParseDecimal(NatToString(n)) == n
    decreases n
  {
    if n >= 10 {
      var s := NatToString(n);
      assert s[..|s| - 1] == NatToString(n / 10);
      ParseNatToString(n / 10);
    }
  }

  lemma NatToStringInjective(a: nat, b: nat)
    requires NatToString(a) == NatToString(b)
    ensures a == b
  {
    ParseNatToString(a);
    ParseNatToString(b);
  }

  // ---------------------------------------------------------------------------
  // Splitting on one character: the inverse of a join with that character

  /** The first position of `c` in `s`, or `|s|` when there is none. */
  function IndexOf<T(==)>(c: T, s: seq<T>): (r: nat)
    ensures r <= |s|
    ensures r < |s| ==> s[r] == c
    ensures forall i :: 0 <= i < r ==> s[i] != c
  {
    if |s| == 0 then 0 else if s[0] == c then 0 else 1 + IndexOf(c, s[1..])
  }

  function Split(c: char, s: string): seq<string>
    decreases |s|
  {
    var i := IndexOf(c, s);
    if i == |s| then [s] else [s[..i]] + Split(c, s[i + 1..])
  }

  /** Splitting a join on its one-character separator gives the items back,
      when none of them contains the separator. */
  lemma {:induction false} SplitJoin(c: char, items: seq<string>)
    requires |items| > 0
    requires forall i :: 0 <= i < |items| ==> c !in items[i]
    ensures Split(c, Join([c], items)) == items
    decreases |items|
  {
    var s := Join([c], items);
    var x := items[0];
    if |items| == 1 {
      assert IndexOf(c, s) == |s|;
    } else {
      var rest := Join([c], items[1..]);
      assert s == x + [c] + rest;
      var i := IndexOf(c, s);
      assert s[|x|] == c;
      assert i == |x|;
      assert s[..i] == x;
      assert s[i + 1..] == rest;
      SplitJoin(c, items[1..]);
      assert Split(c, s) == [x] + items[1..];
    }
  }

  // ---------------------------------------------------------------------------
  // Substrings

  /** The `n` characters of `s` from position `i`. */
  function Slice(s: string, i: nat, n: nat): string
    requires i + n <= |s|
  {
    s[i..i + n]
  }

  ghost predicate Occurs(part: string, s: string)
  {
    exists i: nat :: i + |part| <= |s| && Slice(s, i, |part|) == part
  }

  lemma OccursBetween(before: string, part: string, after: string)
    ensures Occurs(part, before + part + after)
  {
    var s := before + part + after;
    assert Slice(s, |before|, |part|) == part;
  }

  /** What occurs with text around it occurs on its own. */
  lemma OccursInside(before: string, part: string, after: string, s: string)
    requires Occurs(before + part + after, s)
    ensures Occurs(part, s)
  {
    var whole := before + part + after;
    var i: nat :| i + |whole| <= |s| && Slice(s, i, |whole|) == whole;
    forall k | 0 <= k < |part|
      ensures s[i + |before| + k] == part[k]
    {
      assert s[i + |before| + k] == Slice(s, i, |whole|)[|before| + k];
    }
    assert Slice(s, i + |before|, |part|) == part;
  }

  /** A part written between two fixed pieces occurs, with them, in the
      text that ends with it. */
  lemma OccursAtEnd(head: string, before: string, part: string, after: string)
    ensures Occurs(before + part + after, head + before + part + after)
  {
    var s := head + before + part + after;
    assert Slice(s, |head|, |before + part + after|) == before + part + after;
  }

  /** Appending text keeps what occurs. */
  lemma OccursExtend(part: string, s: string, more: string)
    requires Occurs(part, s)
    ensures Occurs(part, s + more)
  {
    var i: nat :| i + |part| <= |s| && Slice(s, i, |part|) == part;
    assert Slice(s + more, i, |part|) == Slice(s, i, |part|);
  }
}
