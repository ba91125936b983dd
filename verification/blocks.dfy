/** What a template renders, reduced to its readable content: a sequence of
    blocks, each either a piece of text with the role it plays on the page
    or one of the few decorations whose presence the templates compute
    (a `|` separator, a timeline connector, an accent colour). */
module Blocks {
  import opened Strings
  import opened Resume

  /** The role a line of text plays on the page. */
  datatype Slot =
    | Contact(field: PersonalField)
    | SummaryText
    | Role | Employer | RoleAtEmployer | Period
    | DegreeTitle | FieldOfStudy | DegreeInField | School | Grade
    | Group | SkillList
    | ProjectTitle | Tech | ProjectText | ProjectUrl
    | CertTitle | IssuedBy | Issued | CertUrl

  datatype Block =
    | Name(text: string)
    | Heading(text: string)
    | Line(slot: Slot, text: string)
    | Bullet(marker: string, text: string)
    | Chip(text: string)
    | Separator
    | Connector
    | Accent(colour: nat)

  /** A way of picking blocks out of a rendering. */
  datatype Kind =
    | Names | Headings | Lines(slot: Slot) | Bullets(marker: string)
    | Chips | Separators | Connectors | Accents

  predicate Matches(b: Block, k: Kind) {
    match k
    case Names => b.Name?
    case Headings => b.Heading?
    case Lines(s) => b.Line? && b.slot == s
    case Bullets(m) => b.Bullet? && b.marker == m
    case Chips => b.Chip?
    case Separators => b.Separator?
    case Connectors => b.Connector?
    case Accents => b.Accent?
  }

  /** The text a block shows; decorations show none except the `|` separator. */
  function Text(b: Block): string {
    match b
    case Name(t) => t
    case Heading(t) => t
    case Line(_, t) => t
    case Bullet(_, t) => t
    case Chip(t) => t
    case Separator => "|"
    case Connector => ""
    case Accent(_) => ""
  }

  /** The texts of the blocks of kind `k`, in page order. */
  function Select(bs: seq<Block>, k: Kind): (r: seq<string>)
    ensures |r| <= |bs|
  {
    if bs == [] then []
    else (if Matches(bs[0], k) then [Text(bs[0])] else []) + Select(bs[1..], k)
  }

  /** The accent colours, in page order: one per accent block. */
  function Colours(bs: seq<Block>): (r: seq<nat>)
    ensures |r| == |Select(bs, Accents)|
  {
    if bs == [] then []
    else (if bs[0].Accent? then [bs[0].colour] else []) + Colours(bs[1..])
  }

  /** Picking blocks distributes over concatenation. */
  lemma {:induction false} SelectAppend(a: seq<Block>, b: seq<Block>, k: Kind)
    ensures Select(a + b, k) == Select(a, k) + Select(b, k)
  {
    if a == [] {
      assert a + b == b;
    } else {
      assert (a + b)[0] == a[0];
      assert (a + b)[1..] == a[1..] + b;
      SelectAppend(a[1..], b, k);
    }
  }

  lemma {:induction false} ColoursAppend(a: seq<Block>, b: seq<Block>)
    ensures Colours(a + b) == Colours(a) + Colours(b)
  {
    if a == [] {
      assert a + b == b;
    } else {
      assert (a + b)[0] == a[0];
      assert (a + b)[1..] == a[1..] + b;
      ColoursAppend(a[1..], b);
    }
  }

  /** Nothing in front changes nothing. */
  lemma EmptyFront(e: seq<string>, s: seq<string>)
    requires e == []
    ensures e + s == s
  {
  }

  /** Nothing behind changes nothing. */
  lemma EmptyBack(s: seq<string>, e: seq<string>)
    requires e == []
    ensures s + e == s
  {
  }

  lemma SelectOne(b: Block, k: Kind)
    ensures Select([b], k) == if Matches(b, k) then [Text(b)] else []
    ensures Colours([b]) == if b.Accent? then [b.colour] else []
  {
    assert [b][1..] == [];
  }

  /** Picking blocks out of three, four or more consecutive parts. */
  lemma SelectParts3(a: seq<Block>, b: seq<Block>, c: seq<Block>, k: Kind)
    ensures Select(a + b + c, k) == Select(a, k) + Select(b, k) + Select(c, k)
    ensures Colours(a + b + c) == Colours(a) + Colours(b) + Colours(c)
  {
    SelectAppend(a, b, k);
    SelectAppend(a + b, c, k);
    ColoursAppend(a, b);
    ColoursAppend(a + b, c);
  }

  lemma SelectParts4(a: seq<Block>, b: seq<Block>, c: seq<Block>, d: seq<Block>, k: Kind)
    ensures Select(a + b + c + d, k) == Select(a, k) + Select(b, k) + Select(c, k) + Select(d, k)
    ensures Colours(a + b + c + d) == Colours(a) + Colours(b) + Colours(c) + Colours(d)
  {
    SelectParts3(a, b, c, k);
    SelectAppend(a + b + c, d, k);
    ColoursAppend(a + b + c, d);
  }

  lemma SelectParts7(a: seq<Block>, b: seq<Block>, c: seq<Block>, d: seq<Block>,
                     e: seq<Block>, f: seq<Block>, g: seq<Block>, k: Kind)
    ensures Select(a + b + c + d + e + f + g, k) ==
      Select(a, k) + Select(b, k) + Select(c, k) + Select(d, k) + Select(e, k) + Select(f, k) + Select(g, k)
    ensures Colours(a + b + c + d + e + f + g) ==
      Colours(a) + Colours(b) + Colours(c) + Colours(d) + Colours(e) + Colours(f) + Colours(g)
  {
    SelectParts4(a, b, c, d, k);
    SelectParts4(a + b + c + d, e, f, g, k);
  }

  /** The page: its parts one after the other. */
  function Page(parts: seq<seq<Block>>): seq<Block> {
    if parts == [] then [] else parts[0] + Page(parts[1..])
  }

  lemma PageCons(x: seq<Block>, rest: seq<seq<Block>>)
    ensures Page([x] + rest) == x + Page(rest)
  {
    assert ([x] + rest)[1..] == rest;
  }

  /** A page of six parts shows of each kind what its parts show, in order. */
  lemma PageSelect6(a: seq<Block>, b: seq<Block>, c: seq<Block>, d: seq<Block>,
                    e: seq<Block>, f: seq<Block>, k: Kind)
    ensures Select(Page([a, b, c, d, e, f]), k) ==
      Select(a, k) + Select(b, k) + Select(c, k) + Select(d, k) + Select(e, k) + Select(f, k)
  {
    PageCons(f, []);
    PageCons(e, [f]);
    PageCons(d, [e, f]);
    PageCons(c, [d, e, f]);
    PageCons(b, [c, d, e, f]);
    PageCons(a, [b, c, d, e, f]);
    assert Page([f]) == f;
    assert Page([a, b, c, d, e, f]) == a + (b + (c + (d + (e + f))));
    assert a + (b + (c + (d + (e + f)))) == a + b + c + d + e + f;
    SelectParts4(a, b, c, d, k);
    SelectParts3(a + b + c + d, e, f, k);
  }

  /** A page of seven parts shows of each kind what its parts show, in order. */
  lemma PageSelect7(a: seq<Block>, b: seq<Block>, c: seq<Block>, d: seq<Block>,
                    e: seq<Block>, f: seq<Block>, g: seq<Block>, k: Kind)
    ensures Select(Page([a, b, c, d, e, f, g]), k) ==
      Select(a, k) + Select(b, k) + Select(c, k) + Select(d, k) + Select(e, k) + Select(f, k) + Select(g, k)
    ensures Colours(Page([a, b, c, d, e, f, g])) ==
      Colours(a) + Colours(b) + Colours(c) + Colours(d) + Colours(e) + Colours(f) + Colours(g)
  {
    PageCons(g, []);
    PageCons(f, [g]);
    PageCons(e, [f, g]);
    PageCons(d, [e, f, g]);
    PageCons(c, [d, e, f, g]);
    PageCons(b, [c, d, e, f, g]);
    PageCons(a, [b, c, d, e, f, g]);
    assert Page([g]) == g;
    assert Page([a, b, c, d, e, f, g]) == a + (b + (c + (d + (e + (f + g)))));
    assert a + (b + (c + (d + (e + (f + g))))) == a + b + c + d + e + f + g;
    SelectParts7(a, b, c, d, e, f, g, k);
  }

  /** `cond && <element/>`: the block when the condition holds, nothing otherwise. */
  function Opt(cond: bool, b: Block): seq<Block> {
    if cond then [b] else []
  }

  lemma OptSelect(cond: bool, b: Block, k: Kind)
    ensures Select(Opt(cond, b), k) == if cond && Matches(b, k) then [Text(b)] else []
    ensures Colours(Opt(cond, b)) == if cond && b.Accent? then [b.colour] else []
  {
    SelectOne(b, k);
  }

  /** A line of text is picked by its own slot and by nothing else. */
  lemma LineSelect(slot: Slot, text: string, k: Kind)
    ensures Select([Line(slot, text)], k) == if k == Lines(slot) then [text] else []
  {
    SelectOne(Line(slot, text), k);
  }

  lemma OptLineSelect(cond: bool, slot: Slot, text: string, k: Kind)
    ensures Select(Opt(cond, Line(slot, text)), k) == if cond && k == Lines(slot) then [text] else []
  {
    if cond {
      LineSelect(slot, text, k);
    }
  }

  /** `show && <section><h2>{title}</h2>{body}</section>`. */
  function Section(show: bool, title: string, body: seq<Block>): seq<Block> {
    if show then [Heading(title)] + body else []
  }

  lemma SectionSelect(show: bool, title: string, body: seq<Block>, k: Kind)
    ensures Select(Section(show, title, body), k) ==
      if show then (if k == Headings then [title] else []) + Select(body, k) else []
    ensures Colours(Section(show, title, body)) == if show then Colours(body) else []
  {
    if show {
      SelectOne(Heading(title), k);
      SelectAppend([Heading(title)], body, k);
      ColoursAppend([Heading(title)], body);
    }
  }

  // ---------------------------------------------------------------------
  // Lists of entries: `xs.map((x, index) => ...)`.

  /** The blocks of every entry in order, each entry rendered with its index. */
  function Each<T>(xs: seq<T>, f: (nat, T) -> seq<Block>): seq<Block> {
    EachFrom(xs, f, 0)
  }

  function EachFrom<T>(xs: seq<T>, f: (nat, T) -> seq<Block>, from: nat): seq<Block>
    decreases |xs|
  {
    if xs == [] then [] else f(from, xs[0]) + EachFrom(xs[1..], f, from + 1)
  }

  /** The concatenation of `g` over a list. */
  function Concat<T, U>(xs: seq<T>, g: T -> seq<U>): seq<U> {
    if xs == [] then [] else g(xs[0]) + Concat(xs[1..], g)
  }

  /** When every entry yields `g` of itself under kind `k`, whatever its index,
      the whole list yields the concatenation of `g`. */
  lemma {:induction false} EachSelect<T>(xs: seq<T>, f: (nat, T) -> seq<Block>, from: nat, k: Kind, g: T -> seq<string>)
    requires forall i: nat, x: T :: Select(f(i, x), k) == g(x)
    ensures Select(EachFrom(xs, f, from), k) == Concat(xs, g)
    decreases |xs|
  {
    if xs != [] {
      SelectAppend(f(from, xs[0]), EachFrom(xs[1..], f, from + 1), k);
      EachSelect(xs[1..], f, from + 1, k, g);
    }
  }

  lemma {:induction false} ConcatEmpty<T, U>(xs: seq<T>, g: T -> seq<U>)
    requires forall x :: g(x) == []
    ensures Concat(xs, g) == []
  {
    if xs != [] {
      ConcatEmpty(xs[1..], g);
    }
  }

  lemma {:induction false} ConcatExt<T, U>(xs: seq<T>, g: T -> seq<U>, h: T -> seq<U>)
    requires forall x :: g(x) == h(x)
    ensures Concat(xs, g) == Concat(xs, h)
  {
    if xs != [] {
      ConcatExt(xs[1..], g, h);
    }
  }

  /** Concatenating one item per entry gives one item per entry. */
  lemma {:induction false} ConcatSingles<T, U>(xs: seq<T>, g: T -> seq<U>, h: T -> U)
    requires forall x :: g(x) == [h(x)]
    ensures Concat(xs, g) == seq(|xs|, i requires 0 <= i < |xs| => h(xs[i]))
  {
    if xs != [] {
      ConcatSingles(xs[1..], g, h);
    }
  }

  /** The number of indices `from`, …, `from + n - 1` that satisfy `p`. */
  function CountWhere(p: nat -> bool, from: nat, n: nat): (c: nat)
    ensures c <= n
    decreases n
  {
    if n == 0 then 0 else (if p(from) then 1 else 0) + CountWhere(p, from + 1, n - 1)
  }

  /** When every index in range satisfies `p`, all of them are counted. */
  lemma {:induction false} CountAll(p: nat -> bool, from: nat, n: nat)
    requires forall i: nat :: from <= i < from + n ==> p(i)
    ensures CountWhere(p, from, n) == n
    decreases n
  {
    if n > 0 {
      CountAll(p, from + 1, n - 1);
    }
  }

  /** Counting one more index at the end. */
  lemma {:induction false} CountSnoc(p: nat -> bool, from: nat, n: nat)
    ensures CountWhere(p, from, n + 1) == CountWhere(p, from, n) + (if p(from + n) then 1 else 0)
    decreases n
  {
    if n > 0 {
      CountSnoc(p, from + 1, n - 1);
    }
  }

  /** Blocks in front that show nothing of kind `k` change nothing under `k`. */
  lemma PrefixSelect(pre: seq<Block>, body: seq<Block>, k: Kind)
    requires Select(pre, k) == []
    ensures Select(pre + body, k) == Select(body, k)
  {
    SelectAppend(pre, body, k);
  }

  /** Blocks behind that show nothing of kind `k` change nothing under `k`. */
  lemma SuffixSelect(body: seq<Block>, post: seq<Block>, k: Kind)
    requires Select(post, k) == []
    ensures Select(body + post, k) == Select(body, k)
  {
    SelectAppend(body, post, k);
  }

  /** An entry led by a coloured dot. */
  function Accented(colour: nat, body: seq<Block>): seq<Block> {
    [Accent(colour)] + body
  }

  /** The dot shows no text: under any other kind the entry shows its body. */
  lemma AccentedSelect(colour: nat, body: seq<Block>, k: Kind)
    requires k != Accents
    ensures Select(Accented(colour, body), k) == Select(body, k)
  {
    SelectOne(Accent(colour), k);
    SelectAppend([Accent(colour)], body, k);
  }

  /** A body without dots of its own leaves the entry with its one colour. */
  lemma AccentedColours(colour: nat, body: seq<Block>)
    requires Select(body, Accents) == []
    ensures Colours(Accented(colour, body)) == [colour]
  {
    SelectOne(Accent(colour), Accents);
    ColoursAppend([Accent(colour)], body);
  }

  /** When entry `i` holds one block of kind `k` exactly when `p(i)`, the list
      holds as many as there are indices satisfying `p`. */
  lemma {:induction false} EachCount<T>(xs: seq<T>, f: (nat, T) -> seq<Block>, from: nat, k: Kind, p: nat -> bool)
    requires forall i: nat, x: T :: |Select(f(i, x), k)| == if p(i) then 1 else 0
    ensures |Select(EachFrom(xs, f, from), k)| == CountWhere(p, from, |xs|)
    decreases |xs|
  {
    if xs != [] {
      SelectAppend(f(from, xs[0]), EachFrom(xs[1..], f, from + 1), k);
      EachCount(xs[1..], f, from + 1, k, p);
    }
  }

  /** Entries that each hold one block of kind `k`, except the first which
      holds none: a list of `n` entries holds `n - 1` of them. */
  lemma EachCountNotFirst<T>(xs: seq<T>, f: (nat, T) -> seq<Block>, k: Kind)
    requires forall i: nat, x: T :: |Select(f(i, x), k)| == if i > 0 then 1 else 0
    ensures |Select(Each(xs, f), k)| == if |xs| > 0 then |xs| - 1 else 0
  {
    var p: nat -> bool := (i: nat) => i > 0;
    EachCount(xs, f, 0, k, p);
    if |xs| > 0 {
      CountAll(p, 1, |xs| - 1);
    }
  }

  /** Entries that each hold one block of kind `k`, except the last which
      holds none: a list of `n` entries holds `n - 1` of them. */
  lemma EachCountNotLast<T>(xs: seq<T>, f: (nat, T) -> seq<Block>, k: Kind)
    requires forall i: nat, x: T :: |Select(f(i, x), k)| == if i + 1 < |xs| then 1 else 0
    ensures |Select(Each(xs, f), k)| == if |xs| > 0 then |xs| - 1 else 0
  {
    var n := |xs|;
    var p: nat -> bool := (i: nat) => i + 1 < n;
    EachCount(xs, f, 0, k, p);
    if n > 0 {
      CountSnoc(p, 0, n - 1);
      CountAll(p, 0, n - 1);
    }
  }

  /** When entry `i` carries the single accent colour `c(i)`, the list carries
      `c(from)`, `c(from + 1)`, … in order. */
  lemma {:induction false} EachColours<T>(xs: seq<T>, f: (nat, T) -> seq<Block>, from: nat, c: nat -> nat)
    requires forall i: nat, x: T :: Colours(f(i, x)) == [c(i)]
    ensures Colours(EachFrom(xs, f, from)) == seq(|xs|, j requires 0 <= j < |xs| => c(from + j))
    decreases |xs|
  {
    if xs != [] {
      ColoursAppend(f(from, xs[0]), EachFrom(xs[1..], f, from + 1));
      EachColours(xs[1..], f, from + 1, c);
    }
  }

  /** Entries without accents give a list without accents. */
  lemma {:induction false} EachNoColours<T>(xs: seq<T>, f: (nat, T) -> seq<Block>, from: nat)
    requires forall i: nat, x: T :: Colours(f(i, x)) == []
    ensures Colours(EachFrom(xs, f, from)) == []
    decreases |xs|
  {
    if xs != [] {
      ColoursAppend(f(from, xs[0]), EachFrom(xs[1..], f, from + 1));
      EachNoColours(xs[1..], f, from + 1);
    }
  }

  // ---------------------------------------------------------------------
  // Dates and descriptions, as every template formats them.

  /** `formatDate`: the empty string stays empty; anything else goes through
      the locale formatter `fmt` (`new Date(s + '-01').toLocaleDateString(...)`). */
  function FormatDate(fmt: string -> string, s: string): (r: string)
    ensures s == "" ==> r == ""
    ensures s != "" ==> r == fmt(s)
  {
    if s == "" then "" else fmt(s)
  }

  /** `{formatDate(start)} - {current ? 'Present' : formatDate(end)}`. */
  function DateRange(fmt: string -> string, start: string, end: string, current: bool): (r: string)
    ensures current ==> r == FormatDate(fmt, start) + " - Present"
    ensures !current ==> r == FormatDate(fmt, start) + " - " + FormatDate(fmt, end)
  {
    FormatDate(fmt, start) + " - " + (if current then "Present" else FormatDate(fmt, end))
  }

  /** The end date of an entry marked current is never shown. */
  lemma CurrentHidesEnd(fmt: string -> string, start: string, end1: string, end2: string)
    ensures DateRange(fmt, start, end1, true) == DateRange(fmt, start, end2, true)
  {
  }

  /** The lines a description is shown as: none for an empty description,
      otherwise one per newline-separated piece, empty pieces included. */
  function DescriptionLines(desc: string): (lines: seq<string>)
    ensures desc == "" <==> lines == []
    ensures forall i :: 0 <= i < |lines| ==> '\n' !in lines[i]
  {
    if desc == "" then [] else Split(desc, '\n')
  }

  /** The description's lines put back together with newlines give the description. */
  lemma DescriptionRoundTrip(desc: string)
    ensures Join(DescriptionLines(desc), "\n") == desc
    ensures desc != "" ==> |DescriptionLines(desc)| == multiset(desc)['\n'] + 1
  {
    if desc != "" {
      JoinSplit(desc, '\n');
      SplitCount(desc, '\n');
    }
  }

  /** One bullet per item, in order, each marked with `marker`. */
  function BulletsOf(marker: string, items: seq<string>): (r: seq<Block>)
    ensures forall k :: Select(r, k) == if k == Bullets(marker) then items else []
    ensures Colours(r) == []
  {
    if items == [] then []
    else
      var rest := BulletsOf(marker, items[1..]);
      var r := [Bullet(marker, items[0])] + rest;
      assert r[0] == Bullet(marker, items[0]) && r[1..] == rest;
      assert items == [items[0]] + items[1..];
      r
  }

  /** `desc && desc.split('\n').map(line => <p>{marker} {line}</p>)`. */
  function DescriptionBullets(marker: string, desc: string): seq<Block> {
    BulletsOf(marker, DescriptionLines(desc))
  }

  /** One chip per item, in order: nothing is filtered out. */
  function ChipsOf(items: seq<string>): (r: seq<Block>)
    ensures forall k :: Select(r, k) == if k == Chips then items else []
    ensures Colours(r) == []
  {
    if items == [] then []
    else
      var rest := ChipsOf(items[1..]);
      var r := [Chip(items[0])] + rest;
      assert r[0] == Chip(items[0]) && r[1..] == rest;
      assert items == [items[0]] + items[1..];
      r
  }
}
