/** The order of explorer entries, and the cursor that carries part of one. */
module ExplorerOrder {
  import opened Common

  datatype Kind = Directory | File

  datatype SortBy = ByName | BySize | ByCreatedAt

  datatype SortOrder = Ascending | Descending

  datatype Object = Object(key: string, size: int, createdAt: Time)

  datatype Entry = Entry(kind: Kind, path: string, name: string, isEmpty: bool, content: Option<Object>)

  /** strings.ToLower, of which nothing is assumed. */
  type Lower = string -> string

  // --------------------------------------------------------------- comparing

  /** Lexicographic comparison of strings: -1, 0 or 1. */
  function Lex(a: string, b: string): int {
    if a == "" then (if b == "" then 0 else -1)
    else if b == "" then 1
    else if a[0] != b[0] then (if a[0] < b[0] then -1 else 1)
    else Lex(a[1..], b[1..])
  }

  function CompareNames(lower: Lower, a: string, b: string): int {
    if lower(a) != lower(b) then (if Lex(lower(a), lower(b)) < 0 then -1 else 1) else Lex(a, b)
  }

  function CompareInts(a: int, b: int): int { if a < b then -1 else if a > b then 1 else 0 }

  function Apply(order: SortOrder, value: int): int { if order == Descending then -value else value }

  function TypeOrder(k: Kind): int { if k == Directory then 0 else 1 }

  function SizeOf(e: Entry): int { if e.content.None? then 0 else e.content.value.size }

  /** The zero time stands in for an entry without an object. */
  const ZERO_TIME: Time := 0

  function CreatedAtOf(e: Entry): Time { if e.content.None? then ZERO_TIME else e.content.value.createdAt }

  function Compare(lower: Lower, a: Entry, b: Entry, sortBy: SortBy, order: SortOrder): int {
    if TypeOrder(a.kind) != TypeOrder(b.kind) then TypeOrder(a.kind) - TypeOrder(b.kind)
    else if a.kind == Directory then Apply(order, CompareNames(lower, a.name, b.name))
    else if sortBy == BySize && CompareInts(SizeOf(a), SizeOf(b)) != 0 then Apply(order, CompareInts(SizeOf(a), SizeOf(b)))
    else if sortBy == ByCreatedAt && CompareInts(CreatedAtOf(a), CreatedAtOf(b)) != 0 then
      Apply(order, CompareInts(CreatedAtOf(a), CreatedAtOf(b)))
    else Apply(order, CompareNames(lower, a.name, b.name))
  }

  // ---------------------------------------------- what the order means to a reader

  /** The order of a dictionary: the first difference decides, and a proper prefix comes
      first. */
  ghost predicate LexBefore(a: string, b: string) {
    a < b || exists k :: 0 <= k < |a| && k < |b| && a[..k] == b[..k] && a[k] < b[k]
  }

  lemma {:induction false} LexIs(a: string, b: string)
    ensures Lex(a, b) < 0 <==> LexBefore(a, b)
  {
    if a != "" && b != "" && a[0] == b[0] {
      LexIs(a[1..], b[1..]);
      if LexBefore(a[1..], b[1..]) {
        if k :| 0 <= k < |a[1..]| && k < |b[1..]| && a[1..][..k] == b[1..][..k] && a[1..][k] < b[1..][k] {
          assert a[..k + 1] == [a[0]] + a[1..][..k] && b[..k + 1] == [b[0]] + b[1..][..k];
        }
        if a[1..] < b[1..] { assert a == [a[0]] + a[1..] && b == [b[0]] + b[1..]; }
      }
      if LexBefore(a, b) {
        if k :| 0 <= k < |a| && k < |b| && a[..k] == b[..k] && a[k] < b[k] {
          assert k > 0 && a[1..][..k - 1] == a[..k][1..] && b[1..][..k - 1] == b[..k][1..];
        }
      }
    } else if a != "" && b != "" {
      forall k | 0 < k < |a| && k < |b| ensures a[..k] != b[..k] { assert a[..k][0] != b[..k][0]; }
      assert a[..0] == b[..0];
    }
  }

  /** Names go by their lower-cased form, and by themselves where those are equal. */
  ghost predicate NameBefore(lower: Lower, a: string, b: string) {
    LexBefore(lower(a), lower(b)) || (lower(a) == lower(b) && LexBefore(a, b))
  }

  /** The field that files are sorted by first, if it is not the name. */
  function SortField(e: Entry, sortBy: SortBy): int
    requires e.content.Some?
  {
    match sortBy
    case ByName => 0
    case BySize => e.content.value.size
    case ByCreatedAt => e.content.value.createdAt
  }

  /** The field asked for goes up or down, and names after it. */
  ghost predicate FileAbove(lower: Lower, a: Entry, b: Entry, sortBy: SortBy, order: SortOrder) {
    && a.content.Some? && b.content.Some?
    && var x, y := SortField(a, sortBy), SortField(b, sortBy);
       if order == Ascending then x < y || (x == y && NameBefore(lower, a.name, b.name))
       else x > y || (x == y && NameBefore(lower, b.name, a.name))
  }

  ghost predicate DirectoryAbove(lower: Lower, a: Entry, b: Entry, order: SortOrder) {
    if order == Ascending then NameBefore(lower, a.name, b.name) else NameBefore(lower, b.name, a.name)
  }

  /** What a reader sees of entry a above entry b: directories first and by name; files by
      the field asked for, then by name; upwards or downwards as asked. */
  ghost predicate Above(lower: Lower, a: Entry, b: Entry, sortBy: SortBy, order: SortOrder) {
    match (a.kind, b.kind)
    case (Directory, File) => true
    case (File, Directory) => false
    case (Directory, Directory) => DirectoryAbove(lower, a, b, order)
    case (File, File) => FileAbove(lower, a, b, sortBy, order)
  }

  // ------------------------------------------------------------ total orders

  lemma {:induction false} LexSwaps(a: string, b: string)
    ensures -1 <= Lex(a, b) <= 1 && Lex(a, b) == -Lex(b, a) && (Lex(a, b) == 0 <==> a == b)
  {
    if a != "" && b != "" && a[0] == b[0] {
      LexSwaps(a[1..], b[1..]);
      assert a == [a[0]] + a[1..] && b == [b[0]] + b[1..];
    }
  }

  lemma {:induction false} LexTrans(a: string, b: string, c: string)
    requires Lex(a, b) < 0 && Lex(b, c) < 0
    ensures Lex(a, c) < 0
  {
    if a != "" && b != "" && c != "" && a[0] == b[0] == c[0] { LexTrans(a[1..], b[1..], c[1..]); }
  }

  lemma NamesSwap(lower: Lower, a: string, b: string)
    ensures -1 <= CompareNames(lower, a, b) <= 1 && CompareNames(lower, a, b) == -CompareNames(lower, b, a)
    ensures CompareNames(lower, a, b) == 0 <==> a == b
  {
    LexSwaps(lower(a), lower(b));
    LexSwaps(a, b);
  }

  lemma NamesTrans(lower: Lower, a: string, b: string, c: string)
    requires CompareNames(lower, a, b) < 0 && CompareNames(lower, b, c) < 0
    ensures CompareNames(lower, a, c) < 0
  {
    LexSwaps(lower(a), lower(b));
    LexSwaps(lower(b), lower(c));
    LexSwaps(lower(a), lower(c));
    if lower(a) != lower(b) && lower(b) != lower(c) { LexTrans(lower(a), lower(b), lower(c)); }
    if lower(a) == lower(b) == lower(c) { LexTrans(a, b, c); }
  }

  predicate SameEntry(a: Entry, b: Entry) { a.kind == b.kind && a.name == b.name }

  /** Swapping the arguments swaps the sign, and entries that differ in type or name never
      compare equal. */
  lemma CompareSwaps(lower: Lower, a: Entry, b: Entry, sortBy: SortBy, order: SortOrder)
    ensures Compare(lower, a, b, sortBy, order) == -Compare(lower, b, a, sortBy, order)
    ensures !SameEntry(a, b) ==> Compare(lower, a, b, sortBy, order) != 0
  {
    NamesSwap(lower, a.name, b.name);
  }

  lemma CompareTrans(lower: Lower, a: Entry, b: Entry, c: Entry, sortBy: SortBy, order: SortOrder)
    requires Compare(lower, a, b, sortBy, order) < 0 && Compare(lower, b, c, sortBy, order) < 0
    ensures Compare(lower, a, c, sortBy, order) < 0
  {
    NamesSwap(lower, a.name, b.name);
    NamesSwap(lower, b.name, c.name);
    NamesSwap(lower, a.name, c.name);
    if CompareNames(lower, a.name, b.name) < 0 && CompareNames(lower, b.name, c.name) < 0 {
      NamesTrans(lower, a.name, b.name, c.name);
    }
    if CompareNames(lower, c.name, b.name) < 0 && CompareNames(lower, b.name, a.name) < 0 {
      NamesTrans(lower, c.name, b.name, a.name);
    }
  }

  lemma NamesMean(lower: Lower, a: string, b: string)
    ensures CompareNames(lower, a, b) < 0 <==> NameBefore(lower, a, b)
  {
    LexIs(lower(a), lower(b));
    LexIs(a, b);
    LexSwaps(lower(a), lower(b));
    if lower(a) == lower(b) { LexIs(lower(a), lower(a)); LexSwaps(lower(a), lower(a)); }
  }

  /** The comparison says exactly what a reader sees. */
  lemma CompareMeans(lower: Lower, a: Entry, b: Entry, sortBy: SortBy, order: SortOrder)
    requires (a.kind == File ==> a.content.Some?) && (b.kind == File ==> b.content.Some?)
    ensures Compare(lower, a, b, sortBy, order) < 0 <==> Above(lower, a, b, sortBy, order)
  {
    NamesMean(lower, a.name, b.name);
    NamesMean(lower, b.name, a.name);
    NamesSwap(lower, a.name, b.name);
  }

  // ------------------------------------------------------------------ cursors

  datatype Cursor = Cursor(sortBy: SortBy, order: SortOrder, kind: Kind, name: string, size: Option<int>, createdAt: Option<Time>)

  /** Files carry their object. */
  predicate Listed(e: Entry) { e.kind == File ==> e.content.Some? }

  /** decodeExplorerCursor rejects an empty name, and a file without the field it sorts by. */
  predicate Decodes(c: Cursor) {
    && c.name != ""
    && (c.kind == File && c.sortBy == BySize ==> c.size.Some?)
    && (c.kind == File && c.sortBy == ByCreatedAt ==> c.createdAt.Some?)
  }

  /** A cursor that carries the field it sorts by and no other. */
  predicate Minimal(c: Cursor) {
    && (c.size.Some? <==> c.kind == File && c.sortBy == BySize)
    && (c.createdAt.Some? <==> c.kind == File && c.sortBy == ByCreatedAt)
  }

  /** In this order, every entry compares to `a` as it does to `b`. */
  ghost predicate SamePlace(a: Entry, b: Entry, sortBy: SortBy, order: SortOrder) {
    forall lower: Lower, x: Entry {:trigger Compare(lower, x, a, sortBy, order)} {:trigger Compare(lower, x, b, sortBy, order)} ::
      Compare(lower, x, a, sortBy, order) == Compare(lower, x, b, sortBy, order)
  }

  function CursorOf(e: Entry, sortBy: SortBy, order: SortOrder): Cursor {
    var sized := e.kind == File && e.content.Some?;
    Cursor(sortBy, order, e.kind, e.name,
           if sized && sortBy == BySize then Some(e.content.value.size) else None,
           if sized && sortBy == ByCreatedAt then Some(e.content.value.createdAt) else None)
  }

  function EntryOf(c: Cursor): Entry {
    Entry(c.kind, "", c.name, false,
          if c.kind != File then None
          else Some(Object("", if c.size.Some? then c.size.value else 0,
                           if c.createdAt.Some? then c.createdAt.value else ZERO_TIME)))
  }

  /** Every entry compares to the entry a cursor stands for as it does to the entry the
      cursor was made from, although the cursor carries only part of it. */
  lemma ReducedEntryCompares(lower: Lower, x: Entry, e: Entry, sortBy: SortBy, order: SortOrder)
    requires Listed(e)
    ensures Compare(lower, x, EntryOf(CursorOf(e, sortBy, order)), sortBy, order) == Compare(lower, x, e, sortBy, order)
    ensures Compare(lower, e, EntryOf(CursorOf(e, sortBy, order)), sortBy, order) == 0
  {
    NamesSwap(lower, e.name, e.name);
  }

  lemma ReducedEntry(e: Entry, sortBy: SortBy, order: SortOrder)
    requires Listed(e)
    ensures SamePlace(EntryOf(CursorOf(e, sortBy, order)), e, sortBy, order)
  {
    forall lower: Lower, x: Entry
      ensures Compare(lower, x, EntryOf(CursorOf(e, sortBy, order)), sortBy, order) == Compare(lower, x, e, sortBy, order)
    {
      ReducedEntryCompares(lower, x, e, sortBy, order);
    }
  }

  /** The cursor without the fields that its order does not need. */
  function Trimmed(c: Cursor): Cursor {
    c.(size := if c.kind == File && c.sortBy == BySize then c.size else None,
       createdAt := if c.kind == File && c.sortBy == ByCreatedAt then c.createdAt else None)
  }

  ghost predicate ComesFrom(c: Cursor, e: Entry) { Listed(e) && CursorOf(e, c.sortBy, c.order) == c }

  /** A cursor is accepted if and only if it has a name and, but for fields it does not need,
      is one that some listed entry gives. */
  lemma DecodesIff(c: Cursor)
    ensures Decodes(c) <==> c.name != "" && exists e :: ComesFrom(Trimmed(c), e)
  {
    if Decodes(c) { assert ComesFrom(Trimmed(c), EntryOf(c)); }
  }

  /** explorerCursorFromEntry, filled field by field: the cursor is accepted again, carries
      no more than its order needs, and stands for the place of the entry in that order. */
  method CursorFromEntry(e: Entry, sortBy: SortBy, order: SortOrder) returns (c: Cursor)
    ensures c == CursorOf(e, sortBy, order)
    ensures c.sortBy == sortBy && c.order == order
    ensures Listed(e) ==> Minimal(c) && (Decodes(c) <==> e.name != "")
    ensures Listed(e) ==> SamePlace(EntryOf(c), e, sortBy, order)
  {
    if Listed(e) { ReducedEntry(e, sortBy, order); }
    c := Cursor(sortBy, order, e.kind, e.name, None, None);
    if e.kind != File || e.content.None? { return; }
    if sortBy == BySize { c := c.(size := Some(e.content.value.size)); }
    if sortBy == ByCreatedAt { c := c.(createdAt := Some(e.content.value.createdAt)); }
  }

  /** explorerCursorToEntry: the entry has the place of every entry the cursor can have been
      made from, and gives the cursor back when that carries no field it does not need. */
  method EntryFromCursor(c: Cursor) returns (e: Entry)
    ensures e == EntryOf(c)
    ensures Listed(e) && (CursorOf(e, c.sortBy, c.order) == c <==> Minimal(c))
    ensures forall x {:trigger CursorOf(x, c.sortBy, c.order)} ::
      Listed(x) && CursorOf(x, c.sortBy, c.order) == c ==> SamePlace(e, x, c.sortBy, c.order)
  {
    forall x | Listed(x) && CursorOf(x, c.sortBy, c.order) == c ensures SamePlace(EntryOf(c), x, c.sortBy, c.order) {
      ReducedEntry(x, c.sortBy, c.order);
    }
    e := Entry(c.kind, "", c.name, false, None);
    if c.kind != File { return; }
    var content := Object("", 0, ZERO_TIME);
    if c.size.Some? { content := content.(size := c.size.value); }
    if c.createdAt.Some? { content := content.(createdAt := c.createdAt.value); }
    e := e.(content := Some(content));
  }
}
