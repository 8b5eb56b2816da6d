/** The parser of the gateway's worker list, `id=address,id=address,...`. */
module WorkerList {

  /** The characters that strip() removes. */
  predicate IsSpace(c: char) {
    || '\U{0009}' <= c <= '\U{000D}' || '\U{001C}' <= c <= '\U{0020}' || c == '\U{0085}' || c == '\U{00A0}'
    || c == '\U{1680}' || '\U{2000}' <= c <= '\U{200A}' || c == '\U{2028}' || c == '\U{2029}'
    || c == '\U{202F}' || c == '\U{205F}' || c == '\U{3000}'
  }

  predicate Blank(s: string) {
    forall k :: 0 <= k < |s| ==> IsSpace(s[k])
  }

  predicate Trimmed(s: string) {
    s != "" ==> !IsSpace(s[0]) && !IsSpace(s[|s| - 1])
  }

  function TrimLeft(s: string): string {
    if s != "" && IsSpace(s[0]) then TrimLeft(s[1..]) else s
  }

  function TrimRight(s: string): string {
    if s != "" && IsSpace(s[|s| - 1]) then TrimRight(s[..|s| - 1]) else s
  }

  function Strip(s: string): string {
    TrimRight(TrimLeft(s))
  }

  /** Splitting at every c. */
  function Split(s: string, c: char): (parts: seq<string>)
    ensures |parts| > 0
  {
    if s == "" then [""]
    else
      var rest := Split(s[1..], c);
      if s[0] == c then [""] + rest else [[s[0]] + rest[0]] + rest[1..]
  }

  /** Position of the first c. */
  function IndexOf(s: string, c: char): (k: nat)
    requires c in s
    ensures k < |s| && s[k] == c && c !in s[..k]
  {
    if s[0] == c then 0
    else
      assert s == [s[0]] + s[1..];
      var k := IndexOf(s[1..], c) + 1;
      assert s[..k] == [s[0]] + s[1..][..k - 1];
      k
  }

  /** What one item adds to the workers read so far. */
  function Put(workers: map<string, string>, text: string): map<string, string> {
    var item := Strip(text);
    if item == "" then workers
    else if '=' in item then
      var k := IndexOf(item, '=');
      workers[Strip(item[..k]) := Strip(item[k + 1..])]
    else workers[item := item]
  }

  function PutAll(items: seq<string>): map<string, string> {
    if items == [] then map[] else Put(PutAll(items[..|items| - 1]), items[|items| - 1])
  }

  lemma PutAllNext(items: seq<string>, i: nat)
    requires i < |items|
    ensures PutAll(items[..i + 1]) == Put(PutAll(items[..i]), items[i])
  {
    assert items[..i + 1][..i] == items[..i];
  }

  class GatewayConfig {
    const workersRaw: string
    var workers: map<string, string>

    constructor (workersRaw: string, workers: map<string, string>)
      ensures this.workersRaw == workersRaw && this.workers == workers
    {
      this.workersRaw := workersRaw;
      this.workers := workers;
    }

    /** Workers given explicitly win over the raw list. */
    method PostInit()
      modifies this
      ensures workers == if old(workers) == map[] && workersRaw != "" then PutAll(Split(workersRaw, ',')) else old(workers)
    {
      if workers == map[] && workersRaw != "" {
        var parsed := map[];
        var items := Split(workersRaw, ',');
        for i := 0 to |items|
          invariant parsed == PutAll(items[..i])
        {
          PutAllNext(items, i);
          var item := Strip(items[i]);
          if item == "" {
            continue;
          }
          if '=' in item {
            var k := IndexOf(item, '=');
            parsed := parsed[Strip(item[..k]) := Strip(item[k + 1..])];
          } else {
            parsed := parsed[item := item];
          }
        }
        assert items[..|items|] == items;
        workers := parsed;
      }
    }
  }

  // ----- what the parser reads -----

  /** The ways an item may be written, with arbitrary white space around its parts. */
  datatype Item =
    | Gap(pad: string)
    | Pair(pad: string, id: string, beforeSign: string, afterSign: string, address: string, end: string)
    | Bare(pad: string, id: string, end: string)

  function Text(item: Item): string {
    match item
    case Gap(pad) => pad
    case Pair(pad, id, beforeSign, afterSign, address, end) => (pad + id + beforeSign) + ['='] + (afterSign + address + end)
    case Bare(pad, id, end) => pad + id + end
  }

  predicate Written(item: Item) {
    match item
    case Gap(pad) => Blank(pad)
    case Pair(pad, id, beforeSign, afterSign, address, end) =>
      && Blank(pad) && Blank(beforeSign) && Blank(afterSign) && Blank(end)
      && Trimmed(id) && '=' !in id && ',' !in id
      && Trimmed(address) && ',' !in address
    case Bare(pad, id, end) =>
      Blank(pad) && Blank(end) && id != "" && Trimmed(id) && '=' !in id && ',' !in id
  }

  function Means(workers: map<string, string>, item: Item): map<string, string> {
    match item
    case Gap(_) => workers
    case Pair(_, id, _, _, address, _) => workers[id := address]
    case Bare(_, id, _) => workers[id := id]
  }

  /** The workers a list of items stands for: a later item for the same id wins. */
  function Meaning(items: seq<Item>): map<string, string> {
    if items == [] then map[] else Means(Meaning(items[..|items| - 1]), items[|items| - 1])
  }

  function Texts(items: seq<Item>): (texts: seq<string>)
    ensures |texts| == |items|
    ensures forall k :: 0 <= k < |items| ==> texts[k] == Text(items[k])
  {
    seq(|items|, k requires 0 <= k < |items| => Text(items[k]))
  }

  function Join(parts: seq<string>, c: char): string {
    if parts == [] then ""
    else if |parts| == 1 then parts[0]
    else parts[0] + [c] + Join(parts[1..], c)
  }

  // ----- trimming -----

  lemma {:induction false} TrimLeftPad(pad: string, s: string)
    requires Blank(pad)
    ensures TrimLeft(pad + s) == TrimLeft(s)
  {
    if pad == "" {
      assert pad + s == s;
    } else {
      assert (pad + s)[1..] == pad[1..] + s;
      TrimLeftPad(pad[1..], s);
    }
  }

  lemma {:induction false} TrimRightPad(s: string, pad: string)
    requires Blank(pad)
    ensures TrimRight(s + pad) == TrimRight(s)
  {
    if pad == "" {
      assert s + pad == s;
    } else {
      assert (s + pad)[..|s + pad| - 1] == s + pad[..|pad| - 1];
      TrimRightPad(s, pad[..|pad| - 1]);
    }
  }

  lemma {:induction false} TrimLeftKeeps(s: string, t: string)
    requires t != "" && !IsSpace(t[0])
    ensures TrimLeft(s + t) == TrimLeft(s) + t
  {
    if s == "" {
      assert s + t == t;
    } else if IsSpace(s[0]) {
      assert (s + t)[1..] == s[1..] + t;
      TrimLeftKeeps(s[1..], t);
    }
  }

  lemma {:induction false} TrimRightKeeps(s: string, t: string)
    requires s != "" && !IsSpace(s[|s| - 1])
    ensures TrimRight(s + t) == s + TrimRight(t)
  {
    if t == "" {
      assert s + t == s;
    } else if IsSpace(t[|t| - 1]) {
      assert (s + t)[..|s + t| - 1] == s + t[..|t| - 1];
      TrimRightKeeps(s, t[..|t| - 1]);
    }
  }

  lemma StripPadded(pad: string, core: string, end: string)
    requires Blank(pad) && Blank(end) && Trimmed(core)
    ensures Strip(pad + core + end) == core
  {
    assert pad + core + end == pad + (core + end);
    TrimLeftPad(pad, core + end);
    if core == "" {
      assert core + end == end + "";
      TrimLeftPad(end, "");
    } else {
      assert TrimLeft(core + end) == core + end;
      TrimRightKeeps(core, end);
      assert "" + end == end;
      TrimRightPad("", end);
    }
  }

  lemma {:induction false} TrimLeftSuffix(s: string) returns (pad: string)
    ensures Blank(pad) && s == pad + TrimLeft(s)
  {
    if s != "" && IsSpace(s[0]) {
      var rest := TrimLeftSuffix(s[1..]);
      pad := [s[0]] + rest;
    } else {
      pad := "";
    }
  }

  lemma StripTrimLeft(s: string)
    ensures Strip(TrimLeft(s)) == Strip(s)
  {
    var pad := TrimLeftSuffix(s);
    TrimLeftPad(pad, TrimLeft(s));
  }

  /** Trimming both ends may be done in either order. */
  lemma {:induction false} StripTrimRight(core: string, pad: string, end: string, s: string)
    requires Blank(pad) && Blank(end) && Trimmed(core) && s == pad + core + end
    ensures Strip(TrimRight(s)) == core
  {
    if core == "" {
      assert s == "" + (pad + end);
      TrimRightPad("", pad + end);
    } else {
      assert s == (pad + core) + end;
      TrimRightKeeps(pad + core, end);
      assert "" + end == end;
      TrimRightPad("", end);
      StripPadded(pad, core, "");
      assert pad + core + "" == pad + core;
    }
  }

  // ----- one item -----

  lemma StripAroundSign(left: string, right: string)
    ensures Strip(left + ['='] + right) == TrimLeft(left) + ['='] + TrimRight(right)
  {
    var before := TrimLeft(left);
    assert left + ['='] + right == left + (['='] + right);
    TrimLeftKeeps(left, ['='] + right);
    assert before + (['='] + right) == (before + ['=']) + right;
    TrimRightKeeps(before + ['='], right);
  }

  lemma PutAtFirstSign(workers: map<string, string>, text: string, before: string, after: string)
    requires Strip(text) == before + ['='] + after && '=' !in before
    ensures Put(workers, text) == workers[Strip(before) := Strip(after)]
  {
    var stripped := before + ['='] + after;
    FirstSign(before, after);
    assert stripped[..|before|] == before && stripped[|before| + 1..] == after;
  }

  lemma PairRead(workers: map<string, string>, item: Item)
    requires item.Pair? && Written(item)
    ensures Put(workers, Text(item)) == workers[item.id := item.address]
  {
    var Pair(pad, id, beforeSign, afterSign, address, end) := item;
    var left, right := pad + id + beforeSign, afterSign + address + end;
    StripAroundSign(left, right);
    NoSign(left, TrimLeft(left), id, pad, beforeSign);
    PutAtFirstSign(workers, Text(item), TrimLeft(left), TrimRight(right));
    StripTrimLeft(left);
    StripPadded(pad, id, beforeSign);
    StripTrimRight(address, afterSign, end, right);
  }

  lemma NoSign(left: string, before: string, id: string, pad: string, beforeSign: string)
    requires left == pad + id + beforeSign && before == TrimLeft(left)
    requires Blank(pad) && Blank(beforeSign) && '=' !in id
    ensures '=' !in before
  {
    var cut := TrimLeftSuffix(left);
    forall k | 0 <= k < |before|
      ensures before[k] != '='
    {
      assert left[|cut| + k] == before[k];
    }
  }

  lemma FirstSign(before: string, after: string)
    requires '=' !in before
    ensures var s := before + ['='] + after; '=' in s && IndexOf(s, '=') == |before|
  {
    var s := before + ['='] + after;
    assert s[|before|] == '=';
    var k := IndexOf(s, '=');
    forall j | 0 <= j < |before|
      ensures s[j] != '='
    {
      assert s[j] == before[j];
    }
    forall j | 0 <= j < k
      ensures s[j] != '='
    {
      assert s[..k][j] == s[j];
    }
  }

  lemma ItemRead(workers: map<string, string>, item: Item)
    requires Written(item)
    ensures Put(workers, Text(item)) == Means(workers, item)
  {
    match item
    case Gap(pad) =>
      assert pad == pad + "" + "";
      StripPadded(pad, "", "");
    case Pair(_, _, _, _, _, _) => PairRead(workers, item);
    case Bare(pad, id, end) => StripPadded(pad, id, end);
  }

  lemma TextsOfPrefix(items: seq<Item>)
    requires items != []
    ensures Texts(items)[..|items| - 1] == Texts(items[..|items| - 1])
  {}

  lemma {:induction false} ItemsRead(items: seq<Item>)
    requires forall k :: 0 <= k < |items| ==> Written(items[k])
    ensures PutAll(Texts(items)) == Meaning(items)
  {
    if items != [] {
      var rest, last := items[..|items| - 1], items[|items| - 1];
      ItemsRead(rest);
      TextsOfPrefix(items);
      ItemRead(Meaning(rest), last);
    }
  }

  // ----- splitting -----

  lemma {:induction false} SplitPrefix(p: string, s: string, c: char)
    requires c !in p
    ensures Split(p + s, c) == [p + Split(s, c)[0]] + Split(s, c)[1..]
  {
    if p == "" {
      assert p + s == s && p + Split(s, c)[0] == Split(s, c)[0];
    } else {
      assert (p + s)[1..] == p[1..] + s;
      SplitPrefix(p[1..], s, c);
      assert p[0] in p;
      var rest := Split(p[1..] + s, c);
      assert Split(p + s, c) == [[p[0]] + rest[0]] + rest[1..];
      assert p + Split(s, c)[0] == [p[0]] + (p[1..] + Split(s, c)[0]);
    }
  }

  lemma {:induction false} SplitJoin(parts: seq<string>, c: char)
    requires parts != []
    requires forall k :: 0 <= k < |parts| ==> c !in parts[k]
    ensures Split(Join(parts, c), c) == parts
  {
    if |parts| == 1 {
      SplitPrefix(parts[0], "", c);
      assert parts[0] + "" == parts[0];
    } else {
      var rest := Join(parts[1..], c);
      SplitJoin(parts[1..], c);
      assert ([c] + rest)[1..] == rest;
      assert Split([c] + rest, c) == [""] + parts[1..];
      SplitPrefix(parts[0], [c] + rest, c);
      assert parts[0] + [c] + rest == parts[0] + ([c] + rest);
      assert parts[0] + "" == parts[0];
    }
  }

  lemma NoComma(item: Item)
    requires Written(item)
    ensures ',' !in Text(item)
  {
    assert !IsSpace(',');
  }

  // ----- main results -----

  /**
   The parser reads any list of written items, whatever the white space around ids, addresses and
   items, however many items are blank, and lets the last item for an id win.
   */
  lemma {:induction false} ParserReadsItems(items: seq<Item>)
    requires forall k :: 0 <= k < |items| ==> Written(items[k])
    ensures PutAll(Split(Join(Texts(items), ','), ',')) == Meaning(items)
  {
    ItemsRead(items);
    if items == [] {
      assert PutAll([""][..0]) == map[];
      assert Strip("") == "";
    } else {
      forall k | 0 <= k < |items|
        ensures ',' !in Texts(items)[k]
      {
        NoComma(items[k]);
      }
      SplitJoin(Texts(items), ',');
    }
  }

  /** A map of workers written out in the order of `ids`. */
  function Render(workers: map<string, string>, ids: seq<string>): string
    requires forall k :: 0 <= k < |ids| ==> ids[k] in workers
  {
    Join(Texts(Pairs(workers, ids)), ',')
  }

  function Pairs(workers: map<string, string>, ids: seq<string>): (items: seq<Item>)
    requires forall k :: 0 <= k < |ids| ==> ids[k] in workers
    ensures |items| == |ids|
  {
    seq(|ids|, k requires 0 <= k < |ids| => Pair("", ids[k], "", "", workers[ids[k]], ""))
  }

  lemma {:induction false} MeaningOfPairs(workers: map<string, string>, ids: seq<string>)
    requires forall k :: 0 <= k < |ids| ==> ids[k] in workers
    ensures Meaning(Pairs(workers, ids)) == map id | id in ids :: workers[id]
  {
    if ids != [] {
      var rest := ids[..|ids| - 1];
      MeaningOfPairs(workers, rest);
      assert Pairs(workers, ids)[..|ids| - 1] == Pairs(workers, rest);
      assert forall id :: id in ids <==> id in rest || id == ids[|ids| - 1];
    }
  }

  /** Round trip: any worker map, written as id=address joined by commas in any order, parses back to itself. */
  lemma RoundTrip(workers: map<string, string>, ids: seq<string>)
    requires forall id :: id in workers <==> id in ids
    requires forall id :: id in workers ==>
               && Trimmed(id) && '=' !in id && ',' !in id
               && Trimmed(workers[id]) && ',' !in workers[id]
    ensures PutAll(Split(Render(workers, ids), ',')) == workers
  {
    var items := Pairs(workers, ids);
    forall k | 0 <= k < |items|
      ensures Written(items[k])
    {
      assert ids[k] in workers;
    }
    ParserReadsItems(items);
    MeaningOfPairs(workers, ids);
  }

  // ----- in plain characters -----

  /** The 29 characters of white space. */
  const SPACES: string :=
    " \t\n\r\U{000B}\U{000C}\U{001C}\U{001D}\U{001E}\U{001F}\U{0085}\U{00A0}\U{1680}\U{2000}\U{2001}\U{2002}\U{2003}"
    + "\U{2004}\U{2005}\U{2006}\U{2007}\U{2008}\U{2009}\U{200A}\U{2028}\U{2029}\U{202F}\U{205F}\U{3000}"

  predicate Padding(s: string) {
    forall k :: 0 <= k < |s| ==> s[k] in SPACES
  }

  /** Printable characters of ASCII, except the comma. */
  predicate PlainAddress(s: string) {
    forall k :: 0 <= k < |s| ==> '!' <= s[k] <= '~' && s[k] != ','
  }

  /** Printable characters of ASCII, except the comma and the equals sign. */
  predicate PlainId(s: string) {
    forall k :: 0 <= k < |s| ==> '!' <= s[k] <= '~' && s[k] != ',' && s[k] != '='
  }

  predicate Plain(item: Item) {
    match item
    case Gap(pad) => Padding(pad)
    case Pair(pad, id, beforeSign, afterSign, address, end) =>
      && Padding(pad) && Padding(beforeSign) && Padding(afterSign) && Padding(end)
      && PlainId(id) && PlainAddress(address)
    case Bare(pad, id, end) => Padding(pad) && Padding(end) && id != "" && PlainId(id)
  }

  lemma PaddingIsBlank(s: string)
    requires Padding(s)
    ensures Blank(s)
  {
    forall k | 0 <= k < |s|
      ensures IsSpace(s[k])
    {
      SpacesAreSpace(s[k]);
    }
  }

  lemma SpacesAreSpace(c: char)
    requires c in SPACES
    ensures IsSpace(c)
  {
    var k :| 0 <= k < |SPACES| && SPACES[k] == c;
  }

  lemma PlainIsTrimmed(s: string)
    requires PlainAddress(s)
    ensures Trimmed(s) && ',' !in s
  {}

  lemma PlainIsWritten(item: Item)
    requires Plain(item)
    ensures Written(item)
  {
    match item
    case Gap(pad) => PaddingIsBlank(pad);
    case Pair(pad, id, beforeSign, afterSign, address, end) =>
      PaddingIsBlank(pad);
      PaddingIsBlank(beforeSign);
      PaddingIsBlank(afterSign);
      PaddingIsBlank(end);
      PlainIsTrimmed(id);
      PlainIsTrimmed(address);
    case Bare(pad, id, end) =>
      PaddingIsBlank(pad);
      PaddingIsBlank(end);
      PlainIsTrimmed(id);
  }

  /** Items in plain characters are read back, whatever white space is around their parts. */
  lemma {:induction false} ParserReadsPlainItems(items: seq<Item>)
    requires forall k :: 0 <= k < |items| ==> Plain(items[k])
    ensures PutAll(Split(Join(Texts(items), ','), ',')) == Meaning(items)
  {
    forall k | 0 <= k < |items|
      ensures Written(items[k])
    {
      PlainIsWritten(items[k]);
    }
    ParserReadsItems(items);
  }

  /** Every worker map in plain characters, written out in any order of its ids, parses back to itself. */
  lemma PlainRoundTrip(workers: map<string, string>, ids: seq<string>)
    requires forall id :: id in workers <==> id in ids
    requires forall id :: id in workers ==> PlainId(id) && PlainAddress(workers[id])
    ensures PutAll(Split(Render(workers, ids), ',')) == workers
  {
    forall id | id in workers
      ensures Trimmed(id) && '=' !in id && ',' !in id && Trimmed(workers[id]) && ',' !in workers[id]
    {
      PlainIsTrimmed(id);
      PlainIsTrimmed(workers[id]);
    }
    RoundTrip(workers, ids);
  }
}
