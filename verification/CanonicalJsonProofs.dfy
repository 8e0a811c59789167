/** The printer is uniquely readable: two well-formed values have the same text exactly when they
    mean the same. */
module CanonicalJsonProofs {
  import opened CanonicalJson

  // ---- strings ----

  /** The part of `s` its first printed piece consumes, and that piece. */
  function Taken(s: Text): nat
    requires s != []
  {
    if Pair(s) then 2 else 1
  }

  function Piece(s: Text): Text
    requires s != []
  {
    if Pair(s) then [s[0], s[1]] else EscapeUnit(s[0])
  }

  lemma HexInjective(m: nat, n: nat)
    requires m < 16 && n < 16 && HexDigit(m) == HexDigit(n)
    ensures m == n
  {
  }

  lemma Escape4Injective(u: Unit, v: Unit)
    requires Escape4(u) == Escape4(v)
    ensures u == v
  {
    assert forall i :: 2 <= i < 6 ==> Escape4(u)[i] == Escape4(v)[i];
    HexInjective(u / 4096, v / 4096);
    HexInjective(u / 256 % 16, v / 256 % 16);
    HexInjective(u / 16 % 16, v / 16 % 16);
    HexInjective(u % 16, v % 16);
    Digits(u);
    Digits(v);
  }

  lemma Digits(u: Unit)
    ensures u == u / 4096 * 4096 + u / 256 % 16 * 256 + u / 16 % 16 * 16 + u % 16
  {
    assert u / 16 / 16 == u / 256 && u / 256 / 16 == u / 4096;
  }

  /** No piece is a proper prefix of another, and a piece tells what it stands for. */
  lemma PieceReads(s: Text, t: Text, x: Text, y: Text)
    requires s != [] && t != [] && Piece(s) + x == Piece(t) + y
    ensures Taken(s) == Taken(t) && s[..Taken(s)] == t[..Taken(t)] && x == y
  {
    var p, q := Piece(s), Piece(t);
    assert (p + x)[0] == p[0] && (q + y)[0] == q[0];
    SamePiece(s, t, x, y);
    assert x == (p + x)[|p|..] && y == (q + y)[|q|..];
    if !Pair(s) && |p| == 6 { Escape4Injective(s[0], t[0]); }
  }

  lemma SamePiece(s: Text, t: Text, x: Text, y: Text)
    requires s != [] && t != [] && Piece(s) + x == Piece(t) + y
    ensures Piece(s) == Piece(t)
  {
    var p, q := Piece(s), Piece(t);
    assert (p + x)[0] == p[0] && (q + y)[0] == q[0];
    if |p| > 1 && |q| > 1 { assert (p + x)[1] == p[1] && (q + y)[1] == q[1]; }
    assert |p| == |q|;
    assert p == (p + x)[..|p|] && q == (q + y)[..|q|];
  }

  lemma EscapeSplits(s: Text)
    requires s != []
    ensures Escape(s) == Piece(s) + Escape(s[Taken(s)..])
  {
  }

  lemma PieceStart(s: Text)
    requires s != []
    ensures Piece(s) != [] && Piece(s)[0] != QUOTE
  {
  }

  lemma Assoc(a: Text, b: Text, c: Text)
    ensures (a + b) + c == a + (b + c)
  {
  }

  /** The text of a string from its first piece on. */
  function Closed(s: Text, x: Text): Text { Escape(s) + ([QUOTE] + x) }

  lemma ClosedStarts(s: Text, x: Text)
    ensures Closed(s, x) != [] && (Closed(s, x)[0] == QUOTE <==> s == [])
    ensures s == [] ==> Closed(s, x) == [QUOTE] + x
    ensures s != [] ==> Closed(s, x) == Piece(s) + Closed(s[Taken(s)..], x)
  {
    if s != [] {
      PieceStart(s);
      EscapeSplits(s);
      Assoc(Piece(s), Escape(s[Taken(s)..]), [QUOTE] + x);
    }
  }

  lemma {:induction false} StringReads(s: Text, t: Text, x: Text, y: Text)
    requires Closed(s, x) == Closed(t, y)
    ensures s == t && x == y
    decreases |s|
  {
    ClosedStarts(s, x);
    ClosedStarts(t, y);
    hide Closed, Escape, Piece;
    if s == [] {
      WordReads([QUOTE], x, y);
    } else {
      PieceReads(s, t, Closed(s[Taken(s)..], x), Closed(t[Taken(t)..], y));
      StringReads(s[Taken(s)..], t[Taken(t)..], x, y);
      assert s == s[..Taken(s)] + s[Taken(s)..] && t == t[..Taken(t)] + t[Taken(t)..];
    }
  }

  lemma QuotedReads(s: Text, t: Text, x: Text, y: Text)
    requires Quoted(s) + x == Quoted(t) + y
    ensures s == t && x == y
  {
    assert Quoted(s) + x == [QUOTE] + Closed(s, x);
    assert Quoted(t) + y == [QUOTE] + Closed(t, y);
    WordReads([QUOTE], Closed(s, x), Closed(t, y));
    StringReads(s, t, x, y);
  }

  // ---- numbers and words ----

  predicate Delimited(r: Text) { r == [] || r[0] in {COMMA, CLOSE_BRACKET, CLOSE_BRACE} }

  lemma Longer(s: Text, t: Text, x: Text, y: Text)
    requires |s| < |t| && s + x == t + y
    ensures x != [] && x[0] == t[|s|]
  {
    assert (s + x)[|s|] == (t + y)[|s|];
  }

  lemma TokenReads(s: Text, t: Text, x: Text, y: Text)
    requires (forall i :: 0 <= i < |s| ==> TokenUnit(s[i])) && (forall i :: 0 <= i < |t| ==> TokenUnit(t[i]))
    requires Delimited(x) && Delimited(y) && s + x == t + y
    ensures s == t && x == y
  {
    if |s| < |t| { Longer(s, t, x, y); }
    if |t| < |s| { Longer(t, s, y, x); }
    assert s == (s + x)[..|s|] && t == (t + y)[..|t|];
    WordReads(s, x, y);
  }

  lemma WordReads(s: Text, x: Text, y: Text)
    requires s + x == s + y
    ensures x == y
  {
    assert x == (s + x)[|s|..] && y == (s + y)[|s|..];
  }

  // ---- the order of keys ----

  lemma {:induction false} BeforeTotal(a: Text, b: Text)
    ensures a == b || Before(a, b) || Before(b, a)
    ensures !(Before(a, b) && Before(b, a)) && !Before(a, a)
  {
    if a != [] {
      BeforeTotal(a[1..], a[1..]);
      if b != [] {
        BeforeTotal(a[1..], b[1..]);
        assert a == [a[0]] + a[1..] && b == [b[0]] + b[1..];
      }
    }
  }

  lemma {:induction false} BeforeTransitive(a: Text, b: Text, c: Text)
    requires Before(a, b) && Before(b, c)
    ensures Before(a, c)
  {
    if a != [] && a[0] == b[0] && b[0] == c[0] { BeforeTransitive(a[1..], b[1..], c[1..]); }
  }

  /** `a` is a proper prefix of `b`, or has the smaller unit where they first differ. */
  ghost predicate Less(a: Text, b: Text) {
    exists k :: 0 <= k <= |a| && k < |b| && a[..k] == b[..k] && (k < |a| ==> a[k] < b[k])
  }

  lemma {:induction false} BeforeExactly(a: Text, b: Text)
    ensures Before(a, b) <==> Less(a, b)
  {
    if a == [] || b == [] {
      if b != [] { assert a[..0] == b[..0]; }
    } else {
      assert a == [a[0]] + a[1..] && b == [b[0]] + b[1..];
      BeforeExactly(a[1..], b[1..]);
      if Before(a, b) {
        if a[0] < b[0] {
          assert a[..0] == b[..0];
        } else {
          var k :| 0 <= k <= |a[1..]| && k < |b[1..]| && a[1..][..k] == b[1..][..k] && (k < |a[1..]| ==> a[1..][k] < b[1..][k]);
          assert a[..k + 1] == [a[0]] + a[1..][..k] && b[..k + 1] == [b[0]] + b[1..][..k];
        }
      }
      if Less(a, b) { LessTail(a, b); }
    }
  }

  lemma LessTail(a: Text, b: Text)
    requires a != [] && b != [] && Less(a, b)
    ensures a[0] < b[0] || (a[0] == b[0] && Less(a[1..], b[1..]))
  {
    var k :| 0 <= k <= |a| && k < |b| && a[..k] == b[..k] && (k < |a| ==> a[k] < b[k]);
    if k > 0 {
      assert a[0] == a[..k][0] == b[..k][0] == b[0];
      assert a[1..][..k - 1] == a[..k][1..] && b[1..][..k - 1] == b[..k][1..];
    }
  }

  /** A text of the source in code units. */
  function Units(s: string): Text
    requires forall i :: 0 <= i < |s| ==> s[i] as nat < 128
  {
    seq(|s|, i requires 0 <= i < |s| => s[i] as nat)
  }

  /** How each code unit appears in a string: as itself, but for quotes, backslashes, control characters and
      surrogates on their own. */
  lemma EscapesAs(u: Unit)
    ensures (32 <= u < 0xD800 && u != 34 && u != 92) || 0xE000 <= u ==> EscapeUnit(u) == [u]
    ensures u == 34 || u == 92 ==> EscapeUnit(u) == [92, u]
    ensures EscapeUnit(8) == Units("\\b") && EscapeUnit(9) == Units("\\t") && EscapeUnit(10) == Units("\\n") && EscapeUnit(12) == Units("\\f")
      && EscapeUnit(13) == Units("\\r")
  {
  }

  lemma CodesAs()
    ensures EscapeUnit(0) == Units("\\u0000") && EscapeUnit(31) == Units("\\u001f") && EscapeUnit(0xD83D) == Units("\\ud83d")
    ensures Escape([0xD83D, 0xDE00]) == [0xD83D, 0xDE00]
  {
    assert [0xD83D, 0xDE00][2..] == [];
  }

  /** The words, and the marks of strings and lists. */
  lemma WordsAs(a: Text, v: Json, w: Json)
    ensures Print(Null) == Units("null") && Print(Bool(true)) == Units("true") && Print(Bool(false)) == Units("false")
    ensures Print(Str(a)) == Units("\"") + Escape(a) + Units("\"")
    ensures Print(Arr([v, w])) == Units("[") + (Print(v) + Units(",") + Print(w)) + Units("]")
  {
    ListOfTwo(v, w);
    hide PrintItems, Escape;
    assert Units("[") == [OPEN_BRACKET] && Units("]") == [CLOSE_BRACKET] && Units(",") == [COMMA] && Units("\"") == [QUOTE];
  }

  lemma ListOfTwo(v: Json, w: Json)
    ensures PrintItems([v, w]) == Print(v) + [COMMA] + Print(w)
  {
    assert [v, w][1..] == [w];
    hide Print;
  }

  lemma SortTwo(x: Entry, y: Entry)
    requires Before(x.key, y.key)
    ensures Sort([x, y]) == [x, y] == Sort([y, x])
  {
    BeforeTotal(x.key, y.key);
    hide Before;
    assert [y][1..] == [] && [x][1..] == [] && [x, y][1..] == [y] && [y, x][1..] == [x];
    assert Sort([x]) == [x] && Sort([y]) == [y];
  }

  lemma TwoEntries(x: Entry, y: Entry)
    ensures PrintEntries([x, y]) == Quoted(x.key) + [COLON] + x.text + ([COMMA] + (Quoted(y.key) + [COLON] + y.text))
  {
    hide Quoted;
    assert [x, y][1..] == [y];
    assert PrintEntries([y]) == Quoted(y.key) + [COLON] + y.text;
  }

  /** The keys of an object are in ascending order, whatever order they came in. */
  lemma ObjectAs(a: Text, b: Text, v: Json, w: Json)
    requires Less(a, b)
    ensures var text := Units("{") + (Quoted(a) + Units(":") + Print(v) + (Units(",") + (Quoted(b) + Units(":") + Print(w)))) + Units("}");
      Print(Obj([Field(a, v), Field(b, w)])) == text == Print(Obj([Field(b, w), Field(a, v)]))
  {
    BeforeExactly(a, b);
    var x, y := Entry(a, Print(v)), Entry(b, Print(w));
    EntriesOfTwo(a, v, b, w);
    EntriesOfTwo(b, w, a, v);
    hide Less, Before, Sort, PrintEntries, Entries, Quoted;
    SortTwo(x, y);
    TwoEntries(x, y);
    assert Units("{") == [OPEN_BRACE] && Units("}") == [CLOSE_BRACE] && Units(",") == [COMMA] && Units(":") == [COLON];
    ObjectPrints([Field(a, v), Field(b, w)]);
    ObjectPrints([Field(b, w), Field(a, v)]);
    hide Print, Units;
  }

  lemma ObjectPrints(fs: seq<Field>)
    ensures Print(Obj(fs)) == [OPEN_BRACE] + PrintEntries(Sort(Entries(fs))) + [CLOSE_BRACE]
  {
    hide PrintEntries, Sort, Entries;
  }

  lemma EntriesOfTwo(a: Text, v: Json, b: Text, w: Json)
    ensures Entries([Field(a, v), Field(b, w)]) == [Entry(a, Print(v)), Entry(b, Print(w))]
  {
    hide Print;
  }

  predicate Ascending(es: seq<Entry>) {
    forall i, j :: 0 <= i < j < |es| ==> Before(es[i].key, es[j].key)
  }

  predicate DistinctEntries(es: seq<Entry>) {
    forall i, j :: 0 <= i < j < |es| ==> es[i].key != es[j].key
  }

  lemma {:induction false} InsertSorts(e: Entry, es: seq<Entry>)
    requires Ascending(es) && forall i :: 0 <= i < |es| ==> es[i].key != e.key
    ensures Ascending(Insert(e, es)) && multiset(Insert(e, es)) == multiset(es) + multiset{e}
  {
    if es == [] {
    } else if Before(e.key, es[0].key) {
      forall i | 0 < i < |es| ensures Before(e.key, es[i].key) { BeforeTransitive(e.key, es[0].key, es[i].key); }
    } else {
      var rest := Insert(e, es[1..]);
      assert es == [es[0]] + es[1..];
      InsertSorts(e, es[1..]);
      BeforeTotal(e.key, es[0].key);
      forall f | f in rest ensures Before(es[0].key, f.key) {
        assert f in multiset(rest);
        if f != e { assert f in es[1..]; }
      }
      forall i | 0 <= i < |rest| ensures Before(es[0].key, rest[i].key) { assert rest[i] in rest; }
    }
  }

  lemma {:induction false} SortSorts(es: seq<Entry>)
    requires DistinctEntries(es)
    ensures Ascending(Sort(es)) && multiset(Sort(es)) == multiset(es)
  {
    if es != [] {
      assert es == [es[0]] + es[1..];
      SortSorts(es[1..]);
      forall i | 0 <= i < |Sort(es[1..])| ensures Sort(es[1..])[i].key != es[0].key {
        assert Sort(es[1..])[i] in multiset(Sort(es[1..]));
        assert Sort(es[1..])[i] in es[1..];
      }
      InsertSorts(es[0], Sort(es[1..]));
    }
  }

  lemma HasMember(es: seq<Entry>)
    requires es != []
    ensures exists e :: e in es
  {
    assert es[0] in es;
  }

  /** Two ascending lists with the same entries are equal. */
  lemma {:induction false} AscendingUnique(es: seq<Entry>, fs: seq<Entry>)
    requires Ascending(es) && Ascending(fs) && forall e :: e in es <==> e in fs
    ensures es == fs
  {
    if es == [] {
      if fs != [] { HasMember(fs); }
    } else {
      assert es[0] in fs;
      assert fs[0] in es;
      BeforeTotal(es[0].key, fs[0].key);
      assert es[0] == fs[0];
      forall e ensures e in es[1..] <==> e in fs[1..] {
        if e in es[1..] { TailOf(es, e); assert e in fs; }
        if e in fs[1..] { TailOf(fs, e); assert e in es; }
      }
      AscendingUnique(es[1..], fs[1..]);
      assert es == [es[0]] + es[1..] && fs == [fs[0]] + fs[1..];
    }
  }

  lemma TailOf(es: seq<Entry>, e: Entry)
    requires Ascending(es) && es != [] && e in es[1..]
    ensures e in es && e != es[0]
  {
    var i :| 0 <= i < |es[1..]| && es[1..][i] == e;
    assert es[i + 1] == e;
    BeforeTotal(e.key, e.key);
  }

  // ---- equal text, equal meaning ----

  /** Every entry of `es` is the entry of some field. */
  predicate From(es: seq<Entry>, fs: seq<Field>) {
    forall i :: 0 <= i < |es| ==> exists j :: 0 <= j < |fs| && es[i] == Entry(fs[j].key, Print(fs[j].value))
  }

  lemma SortedFrom(fs: seq<Field>)
    requires DistinctKeys(fs)
    ensures From(Sort(Entries(fs)), fs) && Ascending(Sort(Entries(fs))) && |Sort(Entries(fs))| == |fs|
    ensures forall j :: 0 <= j < |fs| ==> Entry(fs[j].key, Print(fs[j].value)) in Sort(Entries(fs))
  {
    var es := Entries(fs);
    SortSorts(es);
    assert |multiset(Sort(es))| == |multiset(es)|;
    forall i | 0 <= i < |Sort(es)| ensures exists j :: 0 <= j < |fs| && Sort(es)[i] == Entry(fs[j].key, Print(fs[j].value)) {
      assert Sort(es)[i] in multiset(es);
    }
    forall j | 0 <= j < |fs| ensures Entry(fs[j].key, Print(fs[j].value)) in Sort(es) {
      assert es[j] in multiset(Sort(es));
    }
  }

  /** The first unit of a printed value tells its kind. */
  predicate Starts(v: Json, u: Unit) {
    match v
    case Null => u == 110
    case Infinite => u == 110
    case Undefined => u == 117
    case Bool(truth) => u == if truth then 116 else 102
    case Num(_) => 48 <= u <= 57 || u == 45
    case Str(_) => u == QUOTE
    case Arr(_) => u == OPEN_BRACKET
    case Obj(_) => u == OPEN_BRACE
  }

  lemma PrintStarts(v: Json)
    requires Wellformed(v)
    ensures Print(v) != [] && Starts(v, Print(v)[0])
  {
  }

  lemma SameStart(v: Json, w: Json, x: Text, y: Text)
    requires Wellformed(v) && Wellformed(w) && Print(v) + x == Print(w) + y
    ensures Print(v) != [] && Starts(v, Print(v)[0]) && Starts(w, Print(v)[0])
  {
    PrintStarts(v);
    PrintStarts(w);
    assert (Print(v) + x)[0] == Print(v)[0] && (Print(w) + y)[0] == Print(w)[0];
  }

  /** Equal texts followed by delimiters: the values mean the same and the rests are equal. */
  lemma {:induction false} ValueReads(v: Json, w: Json, x: Text, y: Text)
    requires Wellformed(v) && Wellformed(w) && Delimited(x) && Delimited(y) && Print(v) + x == Print(w) + y
    ensures Meaning(v) == Meaning(w) && x == y
    decreases v, 2, 0
  {
    SameStart(v, w, x, y);
    match v
    case Num(s) => TokenReads(s, w.token, x, y);
    case Str(s) => QuotedReads(s, w.text, x, y);
    case Arr(xs) => ArrayReads(v, w, x, y);
    case Obj(fs) => ObjectReads(v, w, x, y);
    case _ => WordReads(Print(v), x, y);
  }

  lemma {:induction false} ArrayReads(v: Json, w: Json, x: Text, y: Text)
    requires v.Arr? && w.Arr? && Wellformed(v) && Wellformed(w) && Print(v) + x == Print(w) + y
    ensures Meaning(v) == Meaning(w) && x == y
    decreases v, 1, 0
  {
    assert Print(v) + x == [OPEN_BRACKET] + Listed(v.items, x);
    assert Print(w) + y == [OPEN_BRACKET] + Listed(w.items, y);
    WordReads([OPEN_BRACKET], Listed(v.items, x), Listed(w.items, y));
    ItemsRead(v, v.items, w.items, x, y);
  }

  lemma {:induction false} ObjectReads(v: Json, w: Json, x: Text, y: Text)
    requires v.Obj? && w.Obj? && Wellformed(v) && Wellformed(w) && Print(v) + x == Print(w) + y
    ensures Meaning(v) == Meaning(w) && x == y
    decreases v, 1, 0
  {
    var es, gs := Sort(Entries(v.fields)), Sort(Entries(w.fields));
    assert Print(v) + x == [OPEN_BRACE] + Keyed(es, x);
    assert Print(w) + y == [OPEN_BRACE] + Keyed(gs, y);
    WordReads([OPEN_BRACE], Keyed(es, x), Keyed(gs, y));
    SortedFrom(v.fields);
    SortedFrom(w.fields);
    hide Keyed, Sort, Print;
    EntriesRead(v, w, es, gs, x, y);
    SameFields(v, w, es, gs);
  }

  /** The text of a list from its first item on. */
  function Listed(xs: seq<Json>, x: Text): Text { PrintItems(xs) + ([CLOSE_BRACKET] + x) }

  /** The text of an object from its first key on. */
  function Keyed(es: seq<Entry>, x: Text): Text { PrintEntries(es) + ([CLOSE_BRACE] + x) }

  function AfterItem(xs: seq<Json>, x: Text): Text
    requires xs != []
  {
    if |xs| == 1 then [CLOSE_BRACKET] + x else [COMMA] + Listed(xs[1..], x)
  }

  lemma ListedSplits(xs: seq<Json>, x: Text)
    requires forall i :: 0 <= i < |xs| ==> Wellformed(xs[i])
    ensures Listed(xs, x) != [] && (Listed(xs, x)[0] == CLOSE_BRACKET <==> xs == [])
    ensures xs == [] ==> Listed(xs, x) == [CLOSE_BRACKET] + x
    ensures xs != [] ==> Listed(xs, x) == Print(xs[0]) + AfterItem(xs, x) && Delimited(AfterItem(xs, x))
  {
    if xs != [] {
      PrintStarts(xs[0]);
      if |xs| > 1 {
        Assoc(Print(xs[0]), [COMMA], PrintItems(xs[1..]));
        Assoc(Print(xs[0]), [COMMA] + PrintItems(xs[1..]), [CLOSE_BRACKET] + x);
        Assoc([COMMA], PrintItems(xs[1..]), [CLOSE_BRACKET] + x);
      }
    }
  }

  lemma {:induction false} ItemsRead(v: Json, xs: seq<Json>, ys: seq<Json>, x: Text, y: Text)
    requires v.Arr? && (forall i :: 0 <= i < |xs| ==> xs[i] in v.items && Wellformed(xs[i]))
      && (forall i :: 0 <= i < |ys| ==> Wellformed(ys[i]))
    requires Listed(xs, x) == Listed(ys, y)
    ensures Meanings(xs) == Meanings(ys) && x == y
    decreases v, 0, |xs|
  {
    ListedSplits(xs, x);
    ListedSplits(ys, y);
    hide Listed, PrintItems;
    if xs == [] {
      WordReads([CLOSE_BRACKET], x, y);
    } else {
      ValueReads(xs[0], ys[0], AfterItem(xs, x), AfterItem(ys, y));
      if |xs| == 1 {
        WordReads([CLOSE_BRACKET], x, y);
      } else {
        WordReads([COMMA], Listed(xs[1..], x), Listed(ys[1..], y));
        ItemsRead(v, xs[1..], ys[1..], x, y);
      }
    }
  }

  // ---- objects ----

  /** The same keys in the same places, with values that mean the same. */
  predicate SameEntries(v: Json, w: Json, es: seq<Entry>, gs: seq<Entry>)
    requires v.Obj? && w.Obj?
  {
    && |es| == |gs|
    && forall i :: 0 <= i < |es| ==>
         && es[i].key == gs[i].key && es[i].key in FieldMap(v.fields) && gs[i].key in FieldMap(w.fields)
         && FieldMap(v.fields)[es[i].key] == FieldMap(w.fields)[gs[i].key]
  }

  function AfterKey(es: seq<Entry>, x: Text): Text
    requires es != []
  {
    if |es| == 1 then [CLOSE_BRACE] + x else [COMMA] + Keyed(es[1..], x)
  }

  lemma KeyedSplits(es: seq<Entry>, x: Text)
    ensures Keyed(es, x) != [] && (Keyed(es, x)[0] == CLOSE_BRACE <==> es == [])
    ensures es == [] ==> Keyed(es, x) == [CLOSE_BRACE] + x
    ensures es != [] ==> Keyed(es, x) == Quoted(es[0].key) + ([COLON] + (es[0].text + AfterKey(es, x))) && Delimited(AfterKey(es, x))
  {
    if es != [] {
      var q, text := Quoted(es[0].key), es[0].text;
      var tail: Text := if |es| == 1 then [] else [COMMA] + PrintEntries(es[1..]);
      assert tail + ([CLOSE_BRACE] + x) == AfterKey(es, x) by {
        if |es| > 1 { Assoc([COMMA], PrintEntries(es[1..]), [CLOSE_BRACE] + x); }
      }
      hide Quoted, PrintEntries, AfterKey;
      Regroup(q, text, tail, [CLOSE_BRACE] + x);
    }
  }

  lemma Regroup(q: Text, text: Text, tail: Text, x: Text)
    ensures (q + [COLON] + text + tail) + x == q + ([COLON] + (text + (tail + x)))
  {
    Assoc(q + [COLON] + text, tail, x);
    Assoc(q + [COLON], text, tail + x);
    Assoc(q, [COLON], text + (tail + x));
  }

  lemma FromParts(es: seq<Entry>, fs: seq<Field>)
    requires From(es, fs) && es != []
    ensures From([es[0]], fs) && From(es[1..], fs)
  {
    assert forall i :: 0 <= i < |es[1..]| ==> es[1..][i] == es[i + 1];
  }

  lemma SameEntriesJoin(v: Json, w: Json, es: seq<Entry>, gs: seq<Entry>)
    requires v.Obj? && w.Obj? && es != [] && gs != []
    requires SameEntries(v, w, [es[0]], [gs[0]]) && SameEntries(v, w, es[1..], gs[1..])
    ensures SameEntries(v, w, es, gs)
  {
    hide FieldMap;
    assert [es[0]][0] == es[0] && [gs[0]][0] == gs[0];
    assert forall i :: 0 < i < |es| ==> es[i] == es[1..][i - 1];
    assert forall i :: 0 < i < |gs| ==> gs[i] == gs[1..][i - 1];
  }

  lemma {:induction false} EntriesRead(v: Json, w: Json, es: seq<Entry>, gs: seq<Entry>, x: Text, y: Text)
    requires v.Obj? && w.Obj? && Wellformed(v) && Wellformed(w) && From(es, v.fields) && From(gs, w.fields)
    requires Keyed(es, x) == Keyed(gs, y)
    ensures SameEntries(v, w, es, gs) && x == y
    decreases v, 0, |es|
  {
    KeyedSplits(es, x);
    KeyedSplits(gs, y);
    assert SameEntries(v, w, [], []);
    hide Keyed, Quoted, Print, From, SameEntries, Wellformed, FieldMap;
    if es == [] {
      WordReads([CLOSE_BRACE], x, y);
    } else {
      FromParts(es, v.fields);
      FromParts(gs, w.fields);
      QuotedReads(es[0].key, gs[0].key, [COLON] + (es[0].text + AfterKey(es, x)), [COLON] + (gs[0].text + AfterKey(gs, y)));
      WordReads([COLON], es[0].text + AfterKey(es, x), gs[0].text + AfterKey(gs, y));
      EntryReads(v, w, es[0], gs[0], AfterKey(es, x), AfterKey(gs, y));
      if |es| == 1 {
        WordReads([CLOSE_BRACE], x, y);
        assert es == [es[0]] && gs == [gs[0]];
      } else {
        WordReads([COMMA], Keyed(es[1..], x), Keyed(gs[1..], y));
        EntriesRead(v, w, es[1..], gs[1..], x, y);
        SameEntriesJoin(v, w, es, gs);
      }
    }
  }

  lemma {:induction false} EntryReads(v: Json, w: Json, e: Entry, g: Entry, x: Text, y: Text)
    requires v.Obj? && w.Obj? && Wellformed(v) && Wellformed(w) && From([e], v.fields) && From([g], w.fields)
    requires e.key == g.key && Delimited(x) && Delimited(y) && e.text + x == g.text + y
    ensures SameEntries(v, w, [e], [g]) && x == y
    decreases v, 0, 0
  {
    assert [e][0] == e && [g][0] == g;
    var i :| 0 <= i < |v.fields| && e == Entry(v.fields[i].key, Print(v.fields[i].value));
    var j :| 0 <= j < |w.fields| && g == Entry(w.fields[j].key, Print(w.fields[j].value));
    hide Print, Meaning, FieldMap, SameEntries, Entries, Delimited;
    ValueReads(v.fields[i].value, w.fields[j].value, x, y);
    EntryMeans(v, w, e, g, i, j);
  }

  lemma EntryMeans(v: Json, w: Json, e: Entry, g: Entry, i: nat, j: nat)
    requires v.Obj? && w.Obj? && Wellformed(v) && Wellformed(w) && i < |v.fields| && j < |w.fields|
    requires e.key == g.key && e.key == v.fields[i].key && g.key == w.fields[j].key && Meaning(v.fields[i].value) == Meaning(w.fields[j].value)
    ensures SameEntries(v, w, [e], [g])
  {
    hide Meaning;
    assert [e][0] == e && [g][0] == g;
  }

  lemma FieldFound(v: Json, es: seq<Entry>, k: Text)
    requires v.Obj? && k in FieldMap(v.fields)
    requires forall j :: 0 <= j < |v.fields| ==> Entry(v.fields[j].key, Print(v.fields[j].value)) in es
    ensures exists i :: 0 <= i < |es| && es[i].key == k
  {
    var j :| 0 <= j < |v.fields| && v.fields[j].key == k;
    var i :| 0 <= i < |es| && es[i] == Entry(v.fields[j].key, Print(v.fields[j].value));
  }

  lemma SameFields(v: Json, w: Json, es: seq<Entry>, gs: seq<Entry>)
    requires v.Obj? && w.Obj? && SameEntries(v, w, es, gs)
    requires forall j :: 0 <= j < |v.fields| ==> Entry(v.fields[j].key, Print(v.fields[j].value)) in es
    requires forall j :: 0 <= j < |w.fields| ==> Entry(w.fields[j].key, Print(w.fields[j].value)) in gs
    ensures FieldMap(v.fields) == FieldMap(w.fields)
  {
    hide Print, FieldMap;
    forall k | k in FieldMap(v.fields) ensures k in FieldMap(w.fields) && FieldMap(w.fields)[k] == FieldMap(v.fields)[k] { FieldFound(v, es, k); }
    forall k | k in FieldMap(w.fields) ensures k in FieldMap(v.fields) { FieldFound(w, gs, k); }
  }

  // ---- equal meaning, equal text ----

  lemma {:induction false} SameMeaningSameText(v: Json, w: Json)
    requires Wellformed(v) && Wellformed(w) && Meaning(v) == Meaning(w)
    ensures Print(v) == Print(w)
    decreases v, 1, 0
  {
    match v
    case Arr(xs) => SameItems(v, xs, w.items);
    case Obj(fs) =>
      SortedFrom(fs);
      SortedFrom(w.fields);
      var es, gs := Sort(Entries(fs)), Sort(Entries(w.fields));
      forall e ensures e in es <==> e in gs {
        if e in es { EntryMoves(v, w, e); }
        if e in gs { EntryMovesBack(v, w, e); }
      }
      AscendingUnique(es, gs);
    case _ =>
  }

  lemma EntryMoves(v: Json, w: Json, e: Entry)
    requires v.Obj? && w.Obj? && Wellformed(v) && Wellformed(w) && FieldMap(v.fields) == FieldMap(w.fields)
    requires e in Sort(Entries(v.fields))
    ensures e in Sort(Entries(w.fields))
    decreases v, 0, 0
  {
    SortedFrom(v.fields);
    SortedFrom(w.fields);
    var i :| 0 <= i < |v.fields| && e == Entry(v.fields[i].key, Print(v.fields[i].value));
    assert v.fields[i].key in FieldMap(w.fields);
    var j :| 0 <= j < |w.fields| && w.fields[j].key == v.fields[i].key;
    SameMeaningSameText(v.fields[i].value, w.fields[j].value);
  }

  lemma EntryMovesBack(v: Json, w: Json, e: Entry)
    requires v.Obj? && w.Obj? && Wellformed(v) && Wellformed(w) && FieldMap(v.fields) == FieldMap(w.fields)
    requires e in Sort(Entries(w.fields))
    ensures e in Sort(Entries(v.fields))
    decreases v, 0, 0
  {
    SortedFrom(v.fields);
    SortedFrom(w.fields);
    var j :| 0 <= j < |w.fields| && e == Entry(w.fields[j].key, Print(w.fields[j].value));
    assert w.fields[j].key in FieldMap(v.fields);
    var i :| 0 <= i < |v.fields| && v.fields[i].key == w.fields[j].key;
    SameMeaningSameText(v.fields[i].value, w.fields[j].value);
  }

  lemma {:induction false} SameItems(v: Json, xs: seq<Json>, ys: seq<Json>)
    requires v.Arr? && (forall i :: 0 <= i < |xs| ==> xs[i] in v.items && Wellformed(xs[i]))
      && (forall i :: 0 <= i < |ys| ==> Wellformed(ys[i]))
    requires Meanings(xs) == Meanings(ys)
    ensures PrintItems(xs) == PrintItems(ys)
    decreases v, 0, |xs|
  {
    assert |xs| == |ys|;
    if xs != [] {
      assert Meanings(xs)[0] == Meanings(ys)[0];
      SameMeaningSameText(xs[0], ys[0]);
      assert Meanings(xs)[1..] == Meanings(xs[1..]) && Meanings(ys)[1..] == Meanings(ys[1..]);
      SameItems(v, xs[1..], ys[1..]);
    }
  }

  // ---- the law ----

  /** Two JSON values print alike exactly when they are equal with objects read as unordered maps
      and infinite numbers read as null. */
  lemma TextIsMeaning(v: Json, w: Json)
    requires Wellformed(v) && Wellformed(w)
    ensures Print(v) == Print(w) <==> Meaning(v) == Meaning(w)
  {
    if Print(v) == Print(w) { ValueReads(v, w, [], []); }
    if Meaning(v) == Meaning(w) { SameMeaningSameText(v, w); }
  }

  /** A number that overflows to infinity and a null are told apart by no digest. */
  lemma InfinityIsNull(key: Text)
    ensures Obj([Field(key, Infinite)]) != Obj([Field(key, Null)])
      && Print(Obj([Field(key, Infinite)])) == Print(Obj([Field(key, Null)]))
  {
    var v, w := Obj([Field(key, Infinite)]), Obj([Field(key, Null)]);
    assert FieldMap(v.fields) == map[key := VNull] == FieldMap(w.fields);
    SameMeaningSameText(v, w);
  }
}
