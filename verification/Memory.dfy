/** Working memory's rolling window, kept one item at a time, and the context compaction over it. */
module Memory {
  import opened Common

  /** `remember`: append, then `items[:1] + items[-(max_items - 1):]` once there are too many. */
  function Remember<T>(items: seq<T>, x: T, maxItems: int): seq<T> {
    var longer := items + [x];
    if |longer| > maxItems then longer[..1] + SliceFromEnd(longer, maxItems - 1) else longer
  }

  function RememberAll<T>(history: seq<T>, maxItems: int): seq<T> {
    if history == [] then []
    else Remember(RememberAll(history[..|history| - 1], maxItems), history[|history| - 1], maxItems)
  }

  /** The first item (the goal) and the most recent ones, `n` in all. */
  function Window<T>(history: seq<T>, n: int): seq<T> {
    if |history| <= n || history == [] then history
    else history[..1] + LastN(history, if n < 1 then 0 else n - 1)
  }

  lemma RememberKeepsWindow<T>(history: seq<T>, x: T, n: int)
    requires n >= 2
    ensures Remember(Window(history, n), x, n) == Window(history + [x], n)
  {
  }

  lemma {:induction false} IncrementalIsBatch<T>(history: seq<T>, n: int)
    requires n >= 2
    ensures RememberAll(history, n) == Window(history, n)
  {
    if history != [] {
      var front, x := history[..|history| - 1], history[|history| - 1];
      IncrementalIsBatch(front, n);
      RememberKeepsWindow(front, x, n);
      assert history == front + [x];
    }
  }

  /** What the rolling window shows: the first item ever remembered, and after it the most recent ones. */
  lemma WindowShows<T>(history: seq<T>, n: int)
    requires n >= 2 && history != []
    ensures var r := RememberAll(history, n);
            && |r| == (if |history| < n then |history| else n)
            && r[0] == history[0] && Suffix(r[1..], history)
  {
    IncrementalIsBatch(history, n);
  }

  ghost predicate KeepsWindow<T(!new)>(n: int) {
    forall history: seq<T> :: RememberAll(history, n) == Window(history, n) && |RememberAll(history, n)| <= n
  }

  /** The window is kept, and stays within `max_items`, exactly when `max_items` is at least two: with
      one, `[-0:]` is the whole list. */
  lemma WindowIsKeptIff<T(!new)>(n: int, x: T)
    ensures KeepsWindow<T>(n) <==> n >= 2
  {
    if n >= 2 {
      forall history: seq<T>
        ensures RememberAll(history, n) == Window(history, n) && |RememberAll(history, n)| <= n
      {
        IncrementalIsBatch(history, n);
      }
    } else {
      WindowOverflows(n, x);
    }
  }

  /** Two items remembered are more than fit, if only one or none does. */
  lemma WindowOverflows<T>(n: int, x: T)
    requires n < 2
    ensures |RememberAll([x], n)| > n || |RememberAll([x, x], n)| > n
  {
    RememberOne(n, x);
    assert [x, x][..1] == [x];
    if n == 1 {
      assert [x] + [x] == [x, x] && [x, x][..1] + SliceFromEnd([x, x], 0) == [x, x, x];
    }
  }

  lemma RememberOne<T>(n: int, x: T)
    requires n < 2
    ensures RememberAll([x], n) == [x]
  {
    assert [x][..0] == [] && RememberAll<T>([], n) == [] && [] + [x] == [x];
  }

  // ---- compaction -----------------------------------------------------------

  /** A message's content; what is not a string is used through its JSON text. */
  datatype Content = Text(text: string) | Json(dumped: string)

  datatype Message = Message(role: Option<string>, content: Option<Content>)

  datatype Capped = Capped(role: string, text: string)

  /** Python's `s[:n]`. */
  function SliceTo<T>(s: seq<T>, n: int): seq<T> {
    if n >= |s| then s else if n >= 0 then s[..n] else if |s| + n >= 0 then s[..|s| + n] else []
  }

  function Decimal(n: nat): string {
    if n < 10 then ["0123456789"[n]] else Decimal(n / 10) + ["0123456789"[n % 10]]
  }

  function Marker(trimmed: nat): string {
    "\n\U{2026}[" + Decimal(trimmed) + " chars trimmed]\U{2026}\n"
  }

  function Cap(text: string, maxChars: int): string {
    if |text| <= maxChars then text
    else SliceTo(text, maxChars / 2) + Marker(|text| - maxChars) + SliceFromEnd(text, maxChars / 2)
  }

  function CapMessage(m: Message, maxChars: int): Capped {
    var text := match m.content
                case None => ""
                case Some(Text(t)) => t
                case Some(Json(d)) => d;
    Capped(if m.role.Some? then m.role.value else "?", Cap(text, maxChars))
  }

  function CapAll(ms: seq<Message>, maxChars: int): (r: seq<Capped>)
    ensures |r| == |ms| && forall i :: 0 <= i < |ms| ==> r[i] == CapMessage(ms[i], maxChars)
  {
    seq(|ms|, i requires 0 <= i < |ms| => CapMessage(ms[i], maxChars))
  }

  method CompactMessages(ms: seq<Message>, maxChars: int, maxItems: int) returns (r: seq<Capped>)
    ensures maxItems >= 2 ==> r == Window(CapAll(ms, maxChars), maxItems)
    ensures maxItems < 2 ==>
              var all := CapAll(ms, maxChars);
              r == if |ms| <= maxItems then all else SliceTo(all, 1) + SliceFromEnd(all, maxItems - 1)
  {
    var capped := CapEach(ms, maxChars);
    if |capped| <= maxItems {
      return capped;
    }
    return SliceTo(capped, 1) + SliceFromEnd(capped, maxItems - 1);
  }

  /** The loop of `compact_messages`. */
  method CapEach(ms: seq<Message>, maxChars: int) returns (capped: seq<Capped>)
    ensures capped == CapAll(ms, maxChars)
  {
    capped := [];
    for i := 0 to |ms|
      invariant |capped| == i && forall k :: 0 <= k < i ==> capped[k] == CapMessage(ms[k], maxChars)
    {
      capped := capped + [CapMessage(ms[i], maxChars)];
    }
  }

  lemma WindowOfWindow<T>(history: seq<T>, n: int, k: int)
    requires 2 <= k <= n
    ensures Window(Window(history, n), k) == Window(history, k)
  {
    if |history| > n {
      var first, recent := history[..1], LastN(history, n - 1);
      LastOfAppend(first, recent, k - 1);
      LastOfLast(history, n - 1, k - 1);
      if k < n {
        assert (first + recent)[..1] == first;
      }
    }
  }

  lemma CapAllOfWindow(history: seq<Message>, n: int, maxChars: int)
    requires n >= 2
    ensures CapAll(Window(history, n), maxChars) == Window(CapAll(history, maxChars), n)
  {
  }

  /** Compacting the rolling window loses nothing against compacting the whole history. */
  lemma CompactingTheWindowIsCompactingTheHistory(history: seq<Message>, n: int, k: int, maxChars: int)
    requires 2 <= k <= n
    ensures Window(CapAll(RememberAll(history, n), maxChars), k) == Window(CapAll(history, maxChars), k)
  {
    IncrementalIsBatch(history, n);
    CapAllOfWindow(history, n, maxChars);
    WindowOfWindow(CapAll(history, maxChars), n, k);
  }

  ghost predicate WithinCap(text: string, maxChars: int) {
    |Cap(text, maxChars)| <= maxChars + if |text| > maxChars then |Marker(|text| - maxChars)| else 0
  }

  lemma CapLength(text: string, maxChars: int)
    requires |text| > maxChars
    ensures maxChars >= 2 ==> |Cap(text, maxChars)| == maxChars / 2 * 2 + |Marker(|text| - maxChars)|
    ensures 0 <= maxChars < 2 ==> |Cap(text, maxChars)| == |text| + |Marker(|text| - maxChars)|
    ensures text == "" ==> |Cap(text, maxChars)| == |Marker(|text| - maxChars)|
  {
    var marker := Marker(|text| - maxChars);
    assert Cap(text, maxChars) == SliceTo(text, maxChars / 2) + marker + SliceFromEnd(text, maxChars / 2);
  }

  /** An item is cut to its cap (plus the marker) exactly when the cap is at least two: half of one
      is zero, and `text[-0:]` is the whole text. */
  lemma CapsSizeIff(maxChars: int)
    ensures (forall text :: WithinCap(text, maxChars)) <==> maxChars >= 2
  {
    if maxChars >= 2 {
      forall text
        ensures WithinCap(text, maxChars)
      {
        if |text| > maxChars {
          CapLength(text, maxChars);
        }
      }
    } else {
      var text := if maxChars < 0 then "" else "ab";
      CapLength(text, maxChars);
      assert !WithinCap(text, maxChars);
    }
  }

  /** A trimmed text still begins and ends as the original does. */
  lemma CapKeepsBothEnds(text: string, maxChars: int)
    requires 2 <= maxChars < |text|
    ensures var (r, half) := (Cap(text, maxChars), maxChars / 2);
            |r| >= 2 * half && r[..half] == text[..half] && LastN(r, half) == LastN(text, half)
  {
  }

  /** What a row of digits is worth. */
  function Worth(digits: string): nat
    requires forall i :: 0 <= i < |digits| ==> '0' <= digits[i] <= '9'
  {
    if digits == "" then 0
    else 10 * Worth(digits[..|digits| - 1]) + (digits[|digits| - 1] as int - '0' as int)
  }

  lemma {:induction false} DecimalReads(n: nat)
    ensures forall i :: 0 <= i < |Decimal(n)| ==> '0' <= Decimal(n)[i] <= '9'
    ensures Worth(Decimal(n)) == n
  {
    if n >= 10 {
      DecimalReads(n / 10);
      assert Decimal(n)[..|Decimal(n)| - 1] == Decimal(n / 10);
    }
  }

  /** The marker says, in decimal, how many characters were trimmed. */
  lemma MarkerReads(n: nat)
    ensures |Marker(n)| >= 20
    ensures var digits := Marker(n)[3..|Marker(n)| - 17];
            (forall i :: 0 <= i < |digits| ==> '0' <= digits[i] <= '9') && Worth(digits) == n
  {
    DecimalReads(n);
    assert Marker(n)[3..|Marker(n)| - 17] == Decimal(n);
  }

  /** A text within its cap is kept as it is. A longer one keeps its two ends, with the marker between. */
  lemma CapMeans(text: string, maxChars: int)
    requires maxChars >= 2
    ensures |text| <= maxChars ==> Cap(text, maxChars) == text
    ensures |text| > maxChars ==>
              Cap(text, maxChars) ==
              text[..maxChars / 2] + Marker(|text| - maxChars) + text[|text| - maxChars / 2..]
  {
  }

  /** An item keeps its role, "?" when it has none, and its own text, capped; no content is the empty text. */
  lemma CapMessageMeans(m: Message, maxChars: int, text: string)
    requires match m.content
             case None => text == ""
             case Some(content) => text == if content.Text? then content.text else content.dumped
    ensures var c := CapMessage(m, maxChars);
            && (if m.role.Some? then c.role == m.role.value else c.role == "?")
            && c.text == Cap(text, maxChars)
            && (|text| <= maxChars ==> c.text == text)
  {
  }

  class WorkingMemory {
    const maxItems: int
    var items: seq<(string, string)>
    ghost var history: seq<(string, string)>

    constructor (maxItems: int)
      ensures this.maxItems == maxItems && Valid() && history == []
    {
      this.maxItems := maxItems;
      items, history := [], [];
    }

    ghost predicate Valid()
      reads this
    {
      items == RememberAll(history, maxItems)
    }

    method Remember(role: string, content: string)
      requires Valid()
      modifies this
      ensures Valid() && history == old(history) + [(role, content)]
    {
      history := history + [(role, content)];
      assert history[..|history| - 1] == old(history);
      items := items + [(role, content)];
      if |items| > maxItems {
        items := items[..1] + SliceFromEnd(items, maxItems - 1);
      }
    }
  }
}
