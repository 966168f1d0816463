/**
 * The table stream of a managed assembly (section II.24.2.6 of ECMA-335): row sizes from the row counts and the
 * heap flags, the start of each table, and the one end check that bounds every column read.
 */
module MetadataTables {

  type Counts = map<nat, nat> // rows of the tables that are present

  datatype Heaps = Heaps(wideStrings: bool, wideGuids: bool, wideBlobs: bool)

  const LAST: nat := 40 // ManifestResource

  function Rows(count: Counts, t: nat): nat {
    if t in count then count[t] else 0
  }

  // ---------------------------------------------------------------- the columns of each table

  datatype Column =
    | Fixed(bytes: nat)
    | StringIndex | GuidIndex | BlobIndex
    | Simple(table: nat)                        // a row number of one table
    | Coded(bits: nat, tables: seq<nat>)        // a row number of one of several tables, tagged

  datatype Columns = End | Then(first: Column, rest: Columns)

  const TYPE_DEF_OR_REF := Coded(2, [2, 1, 27])
  const HAS_CONSTANT := Coded(2, [4, 8, 23])
  const HAS_CUSTOM_ATTRIBUTE :=
    Coded(5, [6, 4, 1, 2, 8, 9, 10, 0, 14, 23, 20, 17, 26, 27, 32, 35, 38, 39, 40, 42, 44, 43])
  const HAS_FIELD_MARSHAL := Coded(1, [4, 8])
  const HAS_DECL_SECURITY := Coded(2, [2, 6, 32])
  const MEMBER_REF_PARENT := Coded(3, [2, 1, 26, 6, 27])
  const HAS_SEMANTICS := Coded(1, [20, 23])
  const METHOD_DEF_OR_REF := Coded(1, [6, 10])
  const MEMBER_FORWARDED := Coded(1, [4, 6])
  const IMPLEMENTATION := Coded(2, [38, 35, 39])
  const CUSTOM_ATTRIBUTE_TYPE := Coded(3, [6, 10])
  const RESOLUTION_SCOPE := Coded(2, [0, 26, 35, 1])

  /** Section II.22 of ECMA-335, with the pointer and edit tables of unoptimised streams. */
  function ColumnsOf(t: nat): Columns {
    match t
    case 0 => Then(Fixed(2), Then(StringIndex, Then(GuidIndex, Then(GuidIndex, Then(GuidIndex, End)))))
    case 1 => Then(RESOLUTION_SCOPE, Then(StringIndex, Then(StringIndex, End)))
    case 2 =>
      Then(Fixed(4), Then(StringIndex, Then(StringIndex, Then(TYPE_DEF_OR_REF,
        Then(Simple(4), Then(Simple(6), End))))))
    case 3 => Then(Simple(4), End)
    case 4 => Then(Fixed(2), Then(StringIndex, Then(BlobIndex, End)))
    case 5 => Then(Simple(6), End)
    case 6 => Then(Fixed(4), Then(Fixed(2), Then(Fixed(2), Then(StringIndex, Then(BlobIndex, Then(Simple(8), End))))))
    case 7 => Then(Simple(8), End)
    case 8 => Then(Fixed(2), Then(Fixed(2), Then(StringIndex, End)))
    case 9 => Then(Simple(2), Then(TYPE_DEF_OR_REF, End))
    case 10 => Then(MEMBER_REF_PARENT, Then(StringIndex, Then(BlobIndex, End)))
    case 11 => Then(Fixed(2), Then(HAS_CONSTANT, Then(BlobIndex, End)))
    case 12 => Then(HAS_CUSTOM_ATTRIBUTE, Then(CUSTOM_ATTRIBUTE_TYPE, Then(BlobIndex, End)))
    case 13 => Then(HAS_FIELD_MARSHAL, Then(BlobIndex, End))
    case 14 => Then(Fixed(2), Then(HAS_DECL_SECURITY, Then(BlobIndex, End)))
    case 15 => Then(Fixed(2), Then(Fixed(4), Then(Simple(2), End)))
    case 16 => Then(Fixed(4), Then(Simple(4), End))
    case 17 => Then(BlobIndex, End)
    case 18 => Then(Simple(2), Then(Simple(20), End))
    case 19 => Then(Simple(20), End)
    case 20 => Then(Fixed(2), Then(StringIndex, Then(TYPE_DEF_OR_REF, End)))
    case 21 => Then(Simple(2), Then(Simple(23), End))
    case 22 => Then(Simple(23), End)
    case 23 => Then(Fixed(2), Then(StringIndex, Then(BlobIndex, End)))
    case 24 => Then(Fixed(2), Then(Simple(6), Then(HAS_SEMANTICS, End)))
    case 25 => Then(Simple(2), Then(METHOD_DEF_OR_REF, Then(METHOD_DEF_OR_REF, End)))
    case 26 => Then(StringIndex, End)
    case 27 => Then(BlobIndex, End)
    case 28 => Then(Fixed(2), Then(MEMBER_FORWARDED, Then(StringIndex, Then(Simple(26), End))))
    case 29 => Then(Fixed(4), Then(Simple(4), End))
    case 30 => Then(Fixed(4), Then(Fixed(4), End))
    case 31 => Then(Fixed(4), End)
    case 32 =>
      Then(Fixed(4), Then(Fixed(2), Then(Fixed(2), Then(Fixed(2),
        Then(Fixed(2), Then(Fixed(4), Then(BlobIndex, Then(StringIndex, Then(StringIndex, End)))))))))
    case 33 => Then(Fixed(4), End)
    case 34 => Then(Fixed(4), Then(Fixed(4), Then(Fixed(4), End)))
    case 35 =>
      Then(Fixed(2), Then(Fixed(2), Then(Fixed(2), Then(Fixed(2),
        Then(Fixed(4), Then(BlobIndex, Then(StringIndex, Then(StringIndex, Then(BlobIndex, End)))))))))
    case 36 => Then(Fixed(4), Then(Simple(35), End))
    case 37 => Then(Fixed(4), Then(Fixed(4), Then(Fixed(4), Then(Simple(35), End))))
    case 38 => Then(Fixed(4), Then(StringIndex, Then(BlobIndex, End)))
    case 39 => Then(Fixed(4), Then(Fixed(4), Then(StringIndex, Then(StringIndex, Then(IMPLEMENTATION, End)))))
    case 40 => Then(Fixed(4), Then(Fixed(4), Then(StringIndex, Then(IMPLEMENTATION, End))))
    case _ => End
  }

  function Power(n: nat): nat {
    if n == 0 then 1 else 2 * Power(n - 1)
  }

  predicate AnyReaches(count: Counts, tables: seq<nat>, bound: nat) {
    exists t | t in tables :: Rows(count, t) >= bound
  }

  /** An index is wide when a table it may point into has more rows than the narrow one can number. */
  function Width(count: Counts, heaps: Heaps, c: Column): nat {
    match c
    case Fixed(bytes) => bytes
    case StringIndex => if heaps.wideStrings then 4 else 2
    case GuidIndex => if heaps.wideGuids then 4 else 2
    case BlobIndex => if heaps.wideBlobs then 4 else 2
    case Simple(t) => if AnyReaches(count, [t], Power(16)) then 4 else 2
    case Coded(bits, tables) => if bits <= 16 && AnyReaches(count, tables, Power(16 - bits)) then 4 else 2
  }

  function WidthOf(count: Counts, heaps: Heaps, columns: Columns): nat {
    match columns
    case End => 0
    case Then(c, rest) => Width(count, heaps, c) + WidthOf(count, heaps, rest)
  }

  function Length(columns: Columns): nat {
    if columns.End? then 0 else 1 + Length(columns.rest)
  }

  function At(columns: Columns, c: nat): Column
    requires c < Length(columns)
  {
    if c == 0 then columns.first else At(columns.rest, c - 1)
  }

  function StartOf(count: Counts, heaps: Heaps, columns: Columns, c: nat): nat
  {
    if c == 0 || columns.End? then 0
    else Width(count, heaps, columns.first) + StartOf(count, heaps, columns.rest, c - 1)
  }

  // ---------------------------------------------------------------- the program's row sizes

  /** A row size as a sum: plain bytes, heap indexes of each kind, row numbers. */
  datatype Format = Format(bytes: nat, strings: nat, guids: nat, blobs: nat, indexes: Columns)

  function FormatOf(t: nat): Format {
    match t
    case 0 => Format(2, 1, 3, 0, End)
    case 1 => Format(0, 2, 0, 0, Then(RESOLUTION_SCOPE, End))
    case 2 => Format(4, 2, 0, 0, Then(TYPE_DEF_OR_REF, Then(Simple(4), Then(Simple(6), End))))
    case 3 => Format(0, 0, 0, 0, Then(Simple(4), End))
    case 4 => Format(2, 1, 0, 1, End)
    case 5 => Format(0, 0, 0, 0, Then(Simple(6), End))
    case 6 => Format(8, 1, 0, 1, Then(Simple(8), End))
    case 7 => Format(0, 0, 0, 0, Then(Simple(8), End))
    case 8 => Format(4, 1, 0, 0, End)
    case 9 => Format(0, 0, 0, 0, Then(Simple(2), Then(TYPE_DEF_OR_REF, End)))
    case 10 => Format(0, 1, 0, 1, Then(MEMBER_REF_PARENT, End))
    case 11 => Format(2, 0, 0, 1, Then(HAS_CONSTANT, End))
    case 12 => Format(0, 0, 0, 1, Then(HAS_CUSTOM_ATTRIBUTE, Then(CUSTOM_ATTRIBUTE_TYPE, End)))
    case 13 => Format(0, 0, 0, 1, Then(HAS_FIELD_MARSHAL, End))
    case 14 => Format(2, 0, 0, 1, Then(HAS_DECL_SECURITY, End))
    case 15 => Format(6, 0, 0, 0, Then(Simple(2), End))
    case 16 => Format(4, 0, 0, 0, Then(Simple(4), End))
    case 17 => Format(0, 0, 0, 1, End)
    case 18 => Format(0, 0, 0, 0, Then(Simple(2), Then(Simple(20), End)))
    case 19 => Format(0, 0, 0, 0, Then(Simple(20), End))
    case 20 => Format(2, 1, 0, 0, Then(TYPE_DEF_OR_REF, End))
    case 21 => Format(0, 0, 0, 0, Then(Simple(2), Then(Simple(23), End)))
    case 22 => Format(0, 0, 0, 0, Then(Simple(23), End))
    case 23 => Format(2, 1, 0, 1, End)
    case 24 => Format(2, 0, 0, 0, Then(Simple(6), Then(HAS_SEMANTICS, End)))
    case 25 => Format(0, 0, 0, 0, Then(Simple(2), Then(METHOD_DEF_OR_REF, Then(METHOD_DEF_OR_REF, End))))
    case 26 => Format(0, 1, 0, 0, End)
    case 27 => Format(0, 0, 0, 1, End)
    case 28 => Format(2, 1, 0, 0, Then(MEMBER_FORWARDED, Then(Simple(26), End)))
    case 29 => Format(4, 0, 0, 0, Then(Simple(4), End))
    case 30 => Format(8, 0, 0, 0, End)
    case 31 => Format(4, 0, 0, 0, End)
    case 32 => Format(16, 2, 0, 1, End)
    case 33 => Format(4, 0, 0, 0, End)
    case 34 => Format(12, 0, 0, 0, End)
    case 35 => Format(12, 2, 0, 2, End)
    case 36 => Format(4, 0, 0, 0, Then(Simple(35), End))
    case 37 => Format(12, 0, 0, 0, Then(Simple(35), End))
    case 38 => Format(4, 1, 0, 1, End)
    case 39 => Format(8, 2, 0, 0, Then(IMPLEMENTATION, End))
    case 40 => Format(8, 1, 0, 0, Then(IMPLEMENTATION, End))
    case _ => Format(0, 0, 0, 0, End)
  }

  function Largest(count: Counts, tables: seq<nat>): nat {
    if tables == [] then 0 else
      var rest := Largest(count, tables[1..]);
      if Rows(count, tables[0]) > rest then Rows(count, tables[0]) else rest
  }

  /** `idx` and `coded` */
  function IndexWidth(count: Counts, c: Column): nat {
    match c
    case Simple(t) => if Rows(count, t) >= 65536 then 4 else 2
    case Coded(bits, tables) => if bits <= 16 && Largest(count, tables) >= Power(16 - bits) then 4 else 2
    case _ => 0
  }

  function IndexWidths(count: Counts, columns: Columns): nat {
    match columns
    case End => 0
    case Then(c, rest) => IndexWidth(count, c) + IndexWidths(count, rest)
  }

  function FormatWidth(count: Counts, heaps: Heaps, f: Format): nat {
    f.bytes
    + f.strings * (if heaps.wideStrings then 4 else 2)
    + f.guids * (if heaps.wideGuids then 4 else 2)
    + f.blobs * (if heaps.wideBlobs then 4 else 2)
    + IndexWidths(count, f.indexes)
  }

  function RowSize(count: Counts, heaps: Heaps, t: nat): nat {
    FormatWidth(count, heaps, FormatOf(t))
  }

  // ---------------------------------------------------------------- the sizes are those of the standard

  lemma {:induction false} LargestReaches(count: Counts, tables: seq<nat>, bound: nat)
    requires bound > 0
    ensures Largest(count, tables) >= bound <==> AnyReaches(count, tables, bound)
  {
    if tables != [] {
      LargestReaches(count, tables[1..], bound);
      assert tables == [tables[0]] + tables[1..];
    }
  }

  lemma {:induction false} PowerIsPositive(n: nat)
    ensures Power(n) > 0
  {
    if n > 0 {
      PowerIsPositive(n - 1);
    }
  }

  lemma PowerOfSixteen()
    ensures Power(16) == 65536
  {
    assert Power(8) == 256;
    assert Power(12) == 16 * Power(8);
    assert Power(16) == 16 * Power(12);
  }

  lemma IndexIsWidth(count: Counts, heaps: Heaps, c: Column)
    requires c.Simple? || c.Coded?
    ensures IndexWidth(count, c) == Width(count, heaps, c)
  {
    if c.Simple? {
      PowerOfSixteen();
      assert AnyReaches(count, [c.table], 65536) <==> Rows(count, c.table) >= 65536 by {
        assert c.table in [c.table];
      }
    } else if c.bits <= 16 {
      PowerIsPositive(16 - c.bits);
      LargestReaches(count, c.tables, Power(16 - c.bits));
    }
  }

  /** The columns of a row, counted by kind. */
  function Group(columns: Columns): Format {
    match columns
    case End => Format(0, 0, 0, 0, End)
    case Then(c, rest) =>
      var f := Group(rest);
      match c
      case Fixed(n) => f.(bytes := n + f.bytes)
      case StringIndex => f.(strings := 1 + f.strings)
      case GuidIndex => f.(guids := 1 + f.guids)
      case BlobIndex => f.(blobs := 1 + f.blobs)
      case _ => f.(indexes := Then(c, f.indexes))
  }

  lemma {:induction false} GroupKeepsWidth(count: Counts, heaps: Heaps, columns: Columns)
    ensures FormatWidth(count, heaps, Group(columns)) == WidthOf(count, heaps, columns)
  {
    hide FormatWidth, IndexWidth, AnyReaches, Power;
    if columns.Then? {
      GroupKeepsWidth(count, heaps, columns.rest);
      FormatGrows(count, heaps, Group(columns.rest), columns.first);
    } else {
      FormatOfNothing(count, heaps);
    }
  }

  lemma FormatOfNothing(count: Counts, heaps: Heaps)
    ensures FormatWidth(count, heaps, Format(0, 0, 0, 0, End)) == 0
  {
  }

  /** One more column adds its width. */
  lemma FormatGrows(count: Counts, heaps: Heaps, f: Format, c: Column)
    ensures Width(count, heaps, c) + FormatWidth(count, heaps, f) == FormatWidth(count, heaps,
      match c
      case Fixed(n) => f.(bytes := n + f.bytes)
      case StringIndex => f.(strings := 1 + f.strings)
      case GuidIndex => f.(guids := 1 + f.guids)
      case BlobIndex => f.(blobs := 1 + f.blobs)
      case _ => f.(indexes := Then(c, f.indexes)))
  {
    if c.Simple? || c.Coded? {
      IndexIsWidth(count, heaps, c);
    }
    hide IndexWidth, AnyReaches, Power;
    Distribute(f.strings, if heaps.wideStrings then 4 else 2);
    Distribute(f.guids, if heaps.wideGuids then 4 else 2);
    Distribute(f.blobs, if heaps.wideBlobs then 4 else 2);
  }

  lemma Formats0To9(t: nat)
    requires 0 <= t <= 9
    ensures Group(ColumnsOf(t)) == FormatOf(t)
  {
    match t {
      case 0 => assert Group(ColumnsOf(0)) == FormatOf(0);
      case 1 => assert Group(ColumnsOf(1)) == FormatOf(1);
      case 2 => assert Group(ColumnsOf(2)) == FormatOf(2);
      case 3 => assert Group(ColumnsOf(3)) == FormatOf(3);
      case 4 => assert Group(ColumnsOf(4)) == FormatOf(4);
      case 5 => assert Group(ColumnsOf(5)) == FormatOf(5);
      case 6 => assert Group(ColumnsOf(6)) == FormatOf(6);
      case 7 => assert Group(ColumnsOf(7)) == FormatOf(7);
      case 8 => assert Group(ColumnsOf(8)) == FormatOf(8);
      case 9 => assert Group(ColumnsOf(9)) == FormatOf(9);
    }
  }

  lemma Formats10To19(t: nat)
    requires 10 <= t <= 19
    ensures Group(ColumnsOf(t)) == FormatOf(t)
  {
    match t {
      case 10 => assert Group(ColumnsOf(10)) == FormatOf(10);
      case 11 => assert Group(ColumnsOf(11)) == FormatOf(11);
      case 12 => assert Group(ColumnsOf(12)) == FormatOf(12);
      case 13 => assert Group(ColumnsOf(13)) == FormatOf(13);
      case 14 => assert Group(ColumnsOf(14)) == FormatOf(14);
      case 15 => assert Group(ColumnsOf(15)) == FormatOf(15);
      case 16 => assert Group(ColumnsOf(16)) == FormatOf(16);
      case 17 => assert Group(ColumnsOf(17)) == FormatOf(17);
      case 18 => assert Group(ColumnsOf(18)) == FormatOf(18);
      case 19 => assert Group(ColumnsOf(19)) == FormatOf(19);
    }
  }

  lemma Formats20To27(t: nat)
    requires 20 <= t <= 27
    ensures Group(ColumnsOf(t)) == FormatOf(t)
  {
    match t {
      case 20 => assert Group(ColumnsOf(20)) == FormatOf(20);
      case 21 => assert Group(ColumnsOf(21)) == FormatOf(21);
      case 22 => assert Group(ColumnsOf(22)) == FormatOf(22);
      case 23 => assert Group(ColumnsOf(23)) == FormatOf(23);
      case 24 => assert Group(ColumnsOf(24)) == FormatOf(24);
      case 25 => assert Group(ColumnsOf(25)) == FormatOf(25);
      case 26 => assert Group(ColumnsOf(26)) == FormatOf(26);
      case 27 => assert Group(ColumnsOf(27)) == FormatOf(27);
    }
  }

  lemma Formats28To33(t: nat)
    requires 28 <= t <= 33
    ensures Group(ColumnsOf(t)) == FormatOf(t)
  {
    match t {
      case 28 => assert Group(ColumnsOf(28)) == FormatOf(28);
      case 29 => assert Group(ColumnsOf(29)) == FormatOf(29);
      case 30 => assert Group(ColumnsOf(30)) == FormatOf(30);
      case 31 => assert Group(ColumnsOf(31)) == FormatOf(31);
      case 32 => assert Group(ColumnsOf(32)) == FormatOf(32);
      case 33 => assert Group(ColumnsOf(33)) == FormatOf(33);
    }
  }

  lemma Formats34To36(t: nat)
    requires 34 <= t <= 36
    ensures Group(ColumnsOf(t)) == FormatOf(t)
  {
    match t {
      case 34 => assert Group(ColumnsOf(34)) == FormatOf(34);
      case 35 => assert Group(ColumnsOf(35)) == FormatOf(35);
      case 36 => assert Group(ColumnsOf(36)) == FormatOf(36);
    }
  }

  lemma Formats37To40(t: nat)
    requires 37 <= t <= 40
    ensures Group(ColumnsOf(t)) == FormatOf(t)
  {
    match t {
      case 37 => assert Group(ColumnsOf(37)) == FormatOf(37);
      case 38 => assert Group(ColumnsOf(38)) == FormatOf(38);
      case 39 => assert Group(ColumnsOf(39)) == FormatOf(39);
      case 40 => assert Group(ColumnsOf(40)) == FormatOf(40);
    }
  }

  /** The row sizes of the program are the widths of the standard's columns, whatever the counts and heap flags. */
  lemma RowSizeIsColumns(count: Counts, heaps: Heaps, t: nat)
    requires t <= LAST
    ensures RowSize(count, heaps, t) == WidthOf(count, heaps, ColumnsOf(t))
  {
    hide ColumnsOf, FormatOf, Group, FormatWidth, WidthOf;
    GroupKeepsWidth(count, heaps, ColumnsOf(t));
    if t <= 9 {
      Formats0To9(t);
    } else if t <= 19 {
      Formats10To19(t);
    } else if t <= 27 {
      Formats20To27(t);
    } else if t <= 33 {
      Formats28To33(t);
    } else if t <= 36 {
      Formats34To36(t);
    } else {
      Formats37To40(t);
    }
  }

  // ---------------------------------------------------------------- the layout of the stream

  function TableStart(count: Counts, sizes: seq<nat>, base: nat, t: nat): nat
    requires t <= |sizes|
  {
    if t == 0 then base else TableStart(count, sizes, base, t - 1) + Rows(count, t - 1) * sizes[t - 1]
  }

  function Sizes(count: Counts, heaps: Heaps): (sizes: seq<nat>)
    ensures |sizes| == LAST + 1 && forall t | 0 <= t <= LAST :: sizes[t] == RowSize(count, heaps, t)
  {
    seq(LAST + 1, t requires 0 <= t <= LAST => RowSize(count, heaps, t))
  }

  /** Where a row of a table starts. */
  function RowStart(count: Counts, sizes: seq<nat>, base: nat, t: nat, row: nat): nat
    requires t < |sizes|
  {
    TableStart(count, sizes, base, t) + row * sizes[t]
  }

  /** Where a column of a row starts. */
  function Address(count: Counts, heaps: Heaps, base: nat, t: nat, row: nat, column: nat): nat
    requires t <= LAST
  {
    RowStart(count, Sizes(count, heaps), base, t, row) + StartOf(count, heaps, ColumnsOf(t), column)
  }

  /** The starts of the tables, one after the other, and the check on the end of the last one that is read. */
  method LayOut(count: Counts, heaps: Heaps, base: nat, end: nat) returns (ok: bool, starts: seq<nat>)
    ensures |starts| == LAST + 1 && forall t | 0 <= t <= LAST ::
      starts[t] == TableStart(count, Sizes(count, heaps), base, t)
    ensures ok <==> TableStart(count, Sizes(count, heaps), base, LAST + 1) <= end
  {
    hide RowSize, Sizes, Rows;
    var sizes := Sizes(count, heaps);
    var cursor := base;
    starts := [];
    for t := 0 to LAST + 1
      invariant cursor == TableStart(count, sizes, base, t) && |starts| == t
      invariant forall k | 0 <= k < t :: starts[k] == TableStart(count, sizes, base, k)
    {
      starts := starts + [cursor];
      cursor := cursor + Rows(count, t) * sizes[t];
    }
    cursor := starts[LAST];
    ok := cursor + Rows(count, LAST) * sizes[LAST] <= end;
  }

  lemma {:induction false} StartsRise(count: Counts, sizes: seq<nat>, base: nat, t: nat, u: nat)
    requires t <= u <= |sizes|
    ensures TableStart(count, sizes, base, t) <= TableStart(count, sizes, base, u)
    decreases u
  {
    if t < u {
      StartsRise(count, sizes, base, t, u - 1);
    }
  }

  lemma {:induction false} ColumnEnds(count: Counts, heaps: Heaps, columns: Columns, c: nat)
    requires c < Length(columns)
    ensures StartOf(count, heaps, columns, c) + Width(count, heaps, At(columns, c)) <= WidthOf(count, heaps, columns)
  {
    hide Width;
    if c > 0 {
      ColumnEnds(count, heaps, columns.rest, c - 1);
    }
  }

  /** A column of a row ends within its row, and a row within its table. */
  lemma RowEnds(count: Counts, heaps: Heaps, base: nat, t: nat, row: nat, c: nat)
    requires t <= LAST && row < Rows(count, t) && c < Length(ColumnsOf(t))
    ensures Address(count, heaps, base, t, row, c) + Width(count, heaps, At(ColumnsOf(t), c))
      <= TableStart(count, Sizes(count, heaps), base, t) + (row + 1) * Sizes(count, heaps)[t]
      <= TableStart(count, Sizes(count, heaps), base, t + 1)
  {
    hide RowSize, Width, WidthOf, ColumnsOf, StartOf;
    RowSizeIsColumns(count, heaps, t);
    ColumnEnds(count, heaps, ColumnsOf(t), c);
    Distribute(row, Sizes(count, heaps)[t]);
    Monotone(row + 1, Rows(count, t), Sizes(count, heaps)[t]);
  }

  lemma Distribute(a: nat, size: nat)
    ensures (a + 1) * size == a * size + size
  {
  }

  lemma Monotone(a: nat, b: nat, size: nat)
    requires a <= b
    ensures 0 <= a * size <= b * size
  {
  }

  /** The single end check bounds every column of every row of every table. */
  lemma ReadsAreInside(count: Counts, heaps: Heaps, base: nat, end: nat, t: nat, row: nat, c: nat)
    requires TableStart(count, Sizes(count, heaps), base, LAST + 1) <= end
    requires t <= LAST && row < Rows(count, t) && c < Length(ColumnsOf(t))
    ensures base <= Address(count, heaps, base, t, row, c)
    ensures Address(count, heaps, base, t, row, c) + Width(count, heaps, At(ColumnsOf(t), c)) <= end
  {
    hide RowSize, Width, StartOf, ColumnsOf;
    RowEnds(count, heaps, base, t, row, c);
    StartsRise(count, Sizes(count, heaps), base, 0, t);
    StartsRise(count, Sizes(count, heaps), base, t + 1, LAST + 1);
    Monotone(0, row, Sizes(count, heaps)[t]);
  }

  /** Different tables and rows never share a byte. */
  lemma RowsAreApart(count: Counts, heaps: Heaps, base: nat, t: nat, row: nat, c: nat, u: nat, other: nat, d: nat)
    requires t <= u <= LAST && row < Rows(count, t) && other < Rows(count, u)
    requires c < Length(ColumnsOf(t)) && d < Length(ColumnsOf(u)) && (t < u || row < other)
    ensures Address(count, heaps, base, t, row, c) + Width(count, heaps, At(ColumnsOf(t), c))
      <= Address(count, heaps, base, u, other, d)
  {
    hide RowSize, Width, StartOf, ColumnsOf;
    RowEnds(count, heaps, base, t, row, c);
    if t < u {
      StartsRise(count, Sizes(count, heaps), base, t + 1, u);
      Monotone(0, other, Sizes(count, heaps)[u]);
    } else {
      Monotone(row + 1, other, Sizes(count, heaps)[t]);
    }
  }

  /** Where the walk reads: resource name and implementation, type name and fields, constant parent and value, names. */
  lemma WalkedColumns(count: Counts, heaps: Heaps)
    ensures var s := Width(count, heaps, StringIndex);
      && StartOf(count, heaps, ColumnsOf(40), 2) == 8 && StartOf(count, heaps, ColumnsOf(40), 3) == 8 + s
      && StartOf(count, heaps, ColumnsOf(2), 1) == 4
      && StartOf(count, heaps, ColumnsOf(2), 4) == 4 + 2 * s + IndexWidth(count, TYPE_DEF_OR_REF)
      && StartOf(count, heaps, ColumnsOf(11), 1) == 2
      && StartOf(count, heaps, ColumnsOf(11), 2) == 2 + IndexWidth(count, HAS_CONSTANT)
      && StartOf(count, heaps, ColumnsOf(4), 1) == 2
  {
    IndexIsWidth(count, heaps, TYPE_DEF_OR_REF);
    IndexIsWidth(count, heaps, HAS_CONSTANT);
    assert ColumnsOf(40) == Then(Fixed(4), Then(Fixed(4), Then(StringIndex, Then(IMPLEMENTATION, End))));
    assert ColumnsOf(2) ==
      Then(Fixed(4), Then(StringIndex, Then(StringIndex, Then(TYPE_DEF_OR_REF,
        Then(Simple(4), Then(Simple(6), End))))));
    assert ColumnsOf(11) == Then(Fixed(2), Then(HAS_CONSTANT, Then(BlobIndex, End)));
    assert ColumnsOf(4) == Then(Fixed(2), Then(StringIndex, Then(BlobIndex, End)));
    hide IndexWidth, AnyReaches, Power, StartOf, ColumnsOf;
    FirstStarts(count, heaps, Fixed(4), Fixed(4), StringIndex, IMPLEMENTATION, End);
    FirstStarts(count, heaps, Fixed(4), StringIndex, StringIndex, TYPE_DEF_OR_REF,
                Then(Simple(4), Then(Simple(6), End)));
    ShortStarts(count, heaps, Fixed(2), HAS_CONSTANT, Then(BlobIndex, End));
    ShortStarts(count, heaps, Fixed(2), StringIndex, Then(BlobIndex, End));
  }

  // ---------------------------------------------------------------- the walk

  /** One read of a little-endian number. */
  datatype Span = Span(start: nat, width: nat)

  predicate Inside(spans: seq<Span>, base: nat, end: nat) {
    forall r | r in spans :: base <= r.start && r.start + r.width <= end
  }

  /** The place of a column in a row, by the standard. */
  function Cell(count: Counts, heaps: Heaps, base: nat, t: nat, row: nat, c: nat): Span
    requires t <= LAST
  {
    Span(Address(count, heaps, base, t, row, c),
         if c < Length(ColumnsOf(t)) then Width(count, heaps, At(ColumnsOf(t), c)) else 0)
  }

  /** What the reads depend on: the bytes of the stream, and which type name is the identity's. */
  datatype Stream = Stream(number: Span -> nat, isIdentity: nat -> bool)

  lemma InsideMore(spans: seq<Span>, more: seq<Span>, base: nat, end: nat)
    requires Inside(spans, base, end) && Inside(more, base, end)
    ensures Inside(spans + more, base, end)
  {
  }

  /** The reads of the ManifestResource rows: offset, name and implementation. */
  method WalkResources(count: Counts, heaps: Heaps, base: nat, end: nat, starts: seq<nat>) returns (spans: seq<Span>)
    requires |starts| == LAST + 1 && starts[LAST] == TableStart(count, Sizes(count, heaps), base, LAST)
    requires TableStart(count, Sizes(count, heaps), base, LAST + 1) <= end
    ensures Inside(spans, base, end) && |spans| == 3 * Rows(count, LAST)
    ensures forall i | 0 <= i < Rows(count, LAST) ::
      && spans[3 * i] == Cell(count, heaps, base, LAST, i, 0)
      && spans[3 * i + 1] == Cell(count, heaps, base, LAST, i, 2)
      && spans[3 * i + 2] == Cell(count, heaps, base, LAST, i, 3)
  {
    hide RowSize, Width, ColumnsOf, StartOf, IndexWidth, Cell;
    var stringIndex, implementation := Width(count, heaps, StringIndex), IndexWidth(count, IMPLEMENTATION);
    var size := Sizes(count, heaps)[LAST];
    var cursor := starts[LAST];
    spans := [];
    for i := 0 to Rows(count, LAST)
      invariant cursor == RowStart(count, Sizes(count, heaps), base, LAST, i)
      invariant Inside(spans, base, end) && |spans| == 3 * i
      invariant forall k | 0 <= k < i ::
        && spans[3 * k] == Cell(count, heaps, base, LAST, k, 0)
        && spans[3 * k + 1] == Cell(count, heaps, base, LAST, k, 2)
        && spans[3 * k + 2] == Cell(count, heaps, base, LAST, k, 3)
    {
      ResourceColumns(count, heaps, base, end, i);
      spans := spans + [Span(cursor, 4), Span(cursor + 8, stringIndex), Span(cursor + 8 + stringIndex, implementation)];
      Distribute(i, size);
      cursor := cursor + size;
    }
  }

  lemma ResourceColumns(count: Counts, heaps: Heaps, base: nat, end: nat, i: nat)
    requires TableStart(count, Sizes(count, heaps), base, LAST + 1) <= end && i < Rows(count, LAST)
    ensures var row := RowStart(count, Sizes(count, heaps), base, LAST, i);
      var s := Width(count, heaps, StringIndex);
      && Inside([Span(row, 4), Span(row + 8, s), Span(row + 8 + s, IndexWidth(count, IMPLEMENTATION))], base, end)
      && Span(row, 4) == Cell(count, heaps, base, LAST, i, 0)
      && Span(row + 8, s) == Cell(count, heaps, base, LAST, i, 2)
      && Span(row + 8 + s, IndexWidth(count, IMPLEMENTATION)) == Cell(count, heaps, base, LAST, i, 3)
  {
    WalkedColumns(count, heaps);
    IndexIsWidth(count, heaps, IMPLEMENTATION);
    var columns := Then(Fixed(4), Then(Fixed(4), Then(StringIndex, Then(IMPLEMENTATION, End))));
    assert ColumnsOf(LAST) == columns;
    assert Length(columns) == 4 && At(columns, 0) == Fixed(4) && At(columns, 2) == StringIndex
      && At(columns, 3) == IMPLEMENTATION;
    ReadsAreInside(count, heaps, base, end, LAST, i, 0);
    ReadsAreInside(count, heaps, base, end, LAST, i, 2);
    ReadsAreInside(count, heaps, base, end, LAST, i, 3);
    assert StartOf(count, heaps, columns, 0) == 0;
    hide IndexWidth, AnyReaches, Power, ColumnsOf, RowSize;
  }

  /** The fields of the identity type: numbers of existing Field rows, or the walk stops. */
  predicate FieldRows(count: Counts, fields: seq<nat>) {
    forall f | f in fields :: 1 <= f <= Rows(count, 4)
  }

  function Range(start: nat, end: nat): (r: seq<nat>)
    requires start <= end
    ensures forall f :: f in r <==> start <= f < end
    decreases end - start
  {
    if start == end then [] else [start] + Range(start + 1, end)
  }

  /** The name of a type row belongs to the identity. */
  predicate IsIdentity(count: Counts, heaps: Heaps, base: nat, stream: Stream, i: nat) {
    stream.isIdentity(stream.number(Cell(count, heaps, base, 2, i, 1)))
  }

  /** The first field of a type row. */
  function FirstField(count: Counts, heaps: Heaps, base: nat, stream: Stream, i: nat): nat {
    stream.number(Cell(count, heaps, base, 2, i, 4))
  }

  /** Its fields end where those of the next row start, or with the table. */
  function EndField(count: Counts, heaps: Heaps, base: nat, stream: Stream, i: nat): nat {
    if i + 1 < Rows(count, 2) then FirstField(count, heaps, base, stream, i + 1) else Rows(count, 4) + 1
  }

  /** The fields of a type row are existing rows. */
  predicate OwnsRows(count: Counts, heaps: Heaps, base: nat, stream: Stream, i: nat) {
    1 <= FirstField(count, heaps, base, stream, i) <= EndField(count, heaps, base, stream, i) <= Rows(count, 4) + 1
  }

  /** Among the first rows, each identity owns existing rows, and only the last identity owns any at all. */
  ghost predicate Identified(count: Counts, heaps: Heaps, base: nat, stream: Stream, n: nat) {
    && (forall i | 0 <= i < n && IsIdentity(count, heaps, base, stream, i) :: OwnsRows(count, heaps, base, stream, i))
    && forall i, j | 0 <= i < j < n && IsIdentity(count, heaps, base, stream, i)
      && IsIdentity(count, heaps, base, stream, j) ::
      FirstField(count, heaps, base, stream, i) == EndField(count, heaps, base, stream, i)
  }

  /** The fields that an identity among the first rows owns. */
  ghost predicate Owned(count: Counts, heaps: Heaps, base: nat, stream: Stream, n: nat, f: nat) {
    exists i | 0 <= i < n && IsIdentity(count, heaps, base, stream, i) ::
      FirstField(count, heaps, base, stream, i) <= f < EndField(count, heaps, base, stream, i)
  }

  /** Only names and first fields of type rows are read. */
  ghost predicate TypeCells(count: Counts, heaps: Heaps, base: nat, spans: seq<Span>) {
    forall span | span in spans :: exists i ::
      0 <= i < Rows(count, 2) && span in {Cell(count, heaps, base, 2, i, 1), Cell(count, heaps, base, 2, i, 4)}
  }

  /**
   * The reads of the TypeDef rows, and the fields that the identity type owns; false stands for a refused image. A
   * second identity type is refused exactly if one before it owns fields.
   */
  method FindIdentity(count: Counts, heaps: Heaps, base: nat, end: nat, starts: seq<nat>, stream: Stream)
    returns (ok: bool, fields: seq<nat>, spans: seq<Span>)
    requires |starts| == LAST + 1 && starts[2] == TableStart(count, Sizes(count, heaps), base, 2)
    requires TableStart(count, Sizes(count, heaps), base, LAST + 1) <= end
    ensures Inside(spans, base, end) && FieldRows(count, fields) && TypeCells(count, heaps, base, spans)
    ensures ok <==> Identified(count, heaps, base, stream, Rows(count, 2))
    ensures ok ==> forall f :: f in fields <==> Owned(count, heaps, base, stream, Rows(count, 2), f)
  {
    hide RowSize, Width, ColumnsOf, StartOf, IndexWidth, Cell, Address, Sizes, Identified, Owned;
    NothingOwned(count, heaps, base, stream);
    var stringIndex, index := Width(count, heaps, StringIndex), IndexWidth(count, Simple(4));
    var fieldOffset := 4 + 2 * stringIndex + IndexWidth(count, TYPE_DEF_OR_REF);
    var size := Sizes(count, heaps)[2];
    ok, fields, spans := true, [], [];
    for i := 0 to Rows(count, 2)
      invariant Inside(spans, base, end) && FieldRows(count, fields) && TypeCells(count, heaps, base, spans)
      invariant ok && Identified(count, heaps, base, stream, i)
      invariant forall f :: f in fields <==> Owned(count, heaps, base, stream, i, f)
    {
      var row := starts[2] + i * size;
      TypeColumns(count, heaps, base, end, i);
      spans := spans + [Span(row + 4, stringIndex)];
      if stream.isIdentity(stream.number(Span(row + 4, stringIndex))) {
        if fields != [] {
          SecondIdentity(count, heaps, base, stream, i, fields[0]);
          return false, fields, spans;
        }
        spans := spans + [Span(row + fieldOffset, index)];
        var first := stream.number(Span(row + fieldOffset, index));
        var last := Rows(count, 4) + 1;
        if i + 1 < Rows(count, 2) {
          TypeColumns(count, heaps, base, end, i + 1);
          Distribute(i, size);
          spans := spans + [Span(row + size + fieldOffset, index)];
          last := stream.number(Span(row + size + fieldOffset, index));
        }
        NextIdentity(count, heaps, base, stream, i, i + 1, fields);
        if !(1 <= first <= last <= Rows(count, 4) + 1) {
          return false, fields, spans;
        }
        fields := Range(first, last);
      } else {
        OtherType(count, heaps, base, stream, i, i + 1);
      }
    }
  }

  lemma NothingOwned(count: Counts, heaps: Heaps, base: nat, stream: Stream)
    ensures Identified(count, heaps, base, stream, 0)
    ensures forall f :: !Owned(count, heaps, base, stream, 0, f)
  {
  }

  /** If the identities so far own nothing, the next row may be one. */
  lemma NextIdentity(count: Counts, heaps: Heaps, base: nat, stream: Stream, i: nat, n: nat, fields: seq<nat>)
    requires n == i + 1 <= Rows(count, 2) && Identified(count, heaps, base, stream, i) && fields == []
    requires forall f :: f in fields <==> Owned(count, heaps, base, stream, i, f)
    requires IsIdentity(count, heaps, base, stream, i)
    ensures if OwnsRows(count, heaps, base, stream, i) then Identified(count, heaps, base, stream, n)
            else !Identified(count, heaps, base, stream, Rows(count, 2))
    ensures forall f: nat :: Owned(count, heaps, base, stream, n, f) <==>
      FirstField(count, heaps, base, stream, i) <= f < EndField(count, heaps, base, stream, i)
  {
    hide IsIdentity, FirstField, EndField, Cell;
    forall k | 0 <= k < i && IsIdentity(count, heaps, base, stream, k)
      ensures FirstField(count, heaps, base, stream, k) == EndField(count, heaps, base, stream, k)
    {
      var f := FirstField(count, heaps, base, stream, k);
      assert OwnsRows(count, heaps, base, stream, k);
      assert !Owned(count, heaps, base, stream, i, f);
    }
  }

  /** A row that is no identity changes nothing. */
  lemma OtherType(count: Counts, heaps: Heaps, base: nat, stream: Stream, i: nat, n: nat)
    requires n == i + 1 && Identified(count, heaps, base, stream, i) && !IsIdentity(count, heaps, base, stream, i)
    ensures Identified(count, heaps, base, stream, n)
    ensures forall f :: Owned(count, heaps, base, stream, n, f) <==> Owned(count, heaps, base, stream, i, f)
  {
    hide IsIdentity, FirstField, EndField, OwnsRows, Cell;
  }

  /** An identity after one that owns fields. */
  lemma SecondIdentity(count: Counts, heaps: Heaps, base: nat, stream: Stream, i: nat, f: nat)
    requires i < Rows(count, 2) && IsIdentity(count, heaps, base, stream, i)
    requires Owned(count, heaps, base, stream, i, f)
    ensures !Identified(count, heaps, base, stream, Rows(count, 2))
  {
    hide IsIdentity, FirstField, EndField, OwnsRows, Cell;
  }

  lemma TypeColumns(count: Counts, heaps: Heaps, base: nat, end: nat, i: nat)
    requires TableStart(count, Sizes(count, heaps), base, LAST + 1) <= end && i < Rows(count, 2)
    ensures var row := RowStart(count, Sizes(count, heaps), base, 2, i);
      var s := Width(count, heaps, StringIndex);
      && Inside([Span(row + 4, s)], base, end)
      && Inside([Span(row + (4 + 2 * s + IndexWidth(count, TYPE_DEF_OR_REF)), IndexWidth(count, Simple(4)))], base, end)
      && Span(row + 4, s) == Cell(count, heaps, base, 2, i, 1)
      && Span(row + (4 + 2 * s + IndexWidth(count, TYPE_DEF_OR_REF)), IndexWidth(count, Simple(4)))
        == Cell(count, heaps, base, 2, i, 4)
  {
    WalkedColumns(count, heaps);
    IndexIsWidth(count, heaps, Simple(4));
    var columns :=
      Then(Fixed(4), Then(StringIndex, Then(StringIndex, Then(TYPE_DEF_OR_REF,
        Then(Simple(4), Then(Simple(6), End))))));
    assert ColumnsOf(2) == columns;
    FifthColumn(Fixed(4), StringIndex, StringIndex, TYPE_DEF_OR_REF, Simple(4), Then(Simple(6), End));
    hide IndexWidth, AnyReaches, Power, ColumnsOf, RowSize, Length, At;
    ReadsAreInside(count, heaps, base, end, 2, i, 1);
    ReadsAreInside(count, heaps, base, end, 2, i, 4);
  }

  lemma FifthColumn(a: Column, b: Column, c: Column, d: Column, e: Column, rest: Columns)
    ensures var columns := Then(a, Then(b, Then(c, Then(d, Then(e, rest)))));
      Length(columns) >= 5 && At(columns, 1) == b && At(columns, 4) == e
  {
    var tail := Then(d, Then(e, rest));
    assert Length(tail) >= 2 && At(tail, 1) == e;
    assert Length(Then(c, tail)) >= 3 && At(Then(c, tail), 2) == e;
    assert Length(Then(b, Then(c, tail))) >= 4 && At(Then(b, Then(c, tail)), 3) == e;
  }

  /** Of each constant row the parent is read, and if that is a field of the identity, the rest and the field's name. */
  ghost predicate ConstantCell(count: Counts, heaps: Heaps, base: nat, stream: Stream, fields: seq<nat>, n: nat,
                               span: Span)
  {
    exists i | 0 <= i < n ::
      var parent := stream.number(Cell(count, heaps, base, 11, i, 1));
      || span == Cell(count, heaps, base, 11, i, 1)
      || (parent % 4 == 0 && parent / 4 in fields && parent / 4 >= 1
          && span in {Cell(count, heaps, base, 11, i, 0), Cell(count, heaps, base, 11, i, 2),
                      Cell(count, heaps, base, 4, parent / 4 - 1, 1)})
  }

  /** The reads of the Constant rows, and of the Field rows of the identity's constants. */
  method WalkConstants(count: Counts, heaps: Heaps, base: nat, end: nat, starts: seq<nat>, stream: Stream,
                       fields: seq<nat>)
    returns (spans: seq<Span>)
    requires |starts| == LAST + 1 && FieldRows(count, fields)
    requires starts[4] == TableStart(count, Sizes(count, heaps), base, 4)
    requires starts[11] == TableStart(count, Sizes(count, heaps), base, 11)
    requires TableStart(count, Sizes(count, heaps), base, LAST + 1) <= end
    ensures Inside(spans, base, end)
    ensures forall span :: span in spans <==> ConstantCell(count, heaps, base, stream, fields, Rows(count, 11), span)
  {
    hide RowSize, Width, ColumnsOf, StartOf, IndexWidth, Cell, Address;
    var stringIndex, blobIndex := Width(count, heaps, StringIndex), Width(count, heaps, BlobIndex);
    var parentIndex := IndexWidth(count, HAS_CONSTANT);
    var sizes := Sizes(count, heaps);
    spans := [];
    for i := 0 to Rows(count, 11)
      invariant Inside(spans, base, end)
      invariant forall span :: span in spans <==> ConstantCell(count, heaps, base, stream, fields, i, span)
    {
      var row := starts[11] + i * sizes[11];
      ConstantColumns(count, heaps, base, end, i);
      spans := spans + [Span(row + 2, parentIndex)];
      var parent := stream.number(Span(row + 2, parentIndex));
      var field := parent / 4;
      if parent % 4 == 0 && field in fields {
        FieldColumns(count, heaps, base, end, field - 1);
        var fieldRow := starts[4] + (field - 1) * sizes[4];
        spans := spans + [Span(row, 2)];
        spans := spans + [Span(fieldRow + 2, stringIndex)];
        spans := spans + [Span(row + (2 + parentIndex), blobIndex)];
      }
    }
  }

  lemma ConstantColumns(count: Counts, heaps: Heaps, base: nat, end: nat, i: nat)
    requires TableStart(count, Sizes(count, heaps), base, LAST + 1) <= end && i < Rows(count, 11)
    ensures var row := RowStart(count, Sizes(count, heaps), base, 11, i);
      && Inside([Span(row, 2)], base, end)
      && Inside([Span(row + 2, IndexWidth(count, HAS_CONSTANT))], base, end)
      && Inside([Span(row + (2 + IndexWidth(count, HAS_CONSTANT)), Width(count, heaps, BlobIndex))], base, end)
      && Span(row, 2) == Cell(count, heaps, base, 11, i, 0)
      && Span(row + 2, IndexWidth(count, HAS_CONSTANT)) == Cell(count, heaps, base, 11, i, 1)
      && Span(row + (2 + IndexWidth(count, HAS_CONSTANT)), Width(count, heaps, BlobIndex))
        == Cell(count, heaps, base, 11, i, 2)
  {
    WalkedColumns(count, heaps);
    IndexIsWidth(count, heaps, HAS_CONSTANT);
    var columns := Then(Fixed(2), Then(HAS_CONSTANT, Then(BlobIndex, End)));
    assert ColumnsOf(11) == columns;
    assert Length(columns) == 3 && At(columns, 0) == Fixed(2) && At(columns, 1) == HAS_CONSTANT
      && At(columns, 2) == BlobIndex;
    assert StartOf(count, heaps, columns, 0) == 0;
    hide IndexWidth, AnyReaches, Power, ColumnsOf, RowSize;
    ReadsAreInside(count, heaps, base, end, 11, i, 0);
    ReadsAreInside(count, heaps, base, end, 11, i, 1);
    ReadsAreInside(count, heaps, base, end, 11, i, 2);
  }

  lemma FieldColumns(count: Counts, heaps: Heaps, base: nat, end: nat, i: nat)
    requires TableStart(count, Sizes(count, heaps), base, LAST + 1) <= end && i < Rows(count, 4)
    ensures Inside(
      [Span(RowStart(count, Sizes(count, heaps), base, 4, i) + 2, Width(count, heaps, StringIndex))], base, end)
    ensures Span(RowStart(count, Sizes(count, heaps), base, 4, i) + 2, Width(count, heaps, StringIndex))
      == Cell(count, heaps, base, 4, i, 1)
  {
    WalkedColumns(count, heaps);
    var columns := Then(Fixed(2), Then(StringIndex, Then(BlobIndex, End)));
    assert ColumnsOf(4) == columns;
    assert Length(columns) == 3 && At(columns, 1) == StringIndex;
    hide IndexWidth, AnyReaches, Power, ColumnsOf, RowSize;
    ReadsAreInside(count, heaps, base, end, 4, i, 1);
  }

  /**
   * The whole walk, from the layout to the constants. Whatever the bytes say, every number is read inside the
   * stream, also when the walk is refused on the way.
   */
  method Walk(count: Counts, heaps: Heaps, base: nat, end: nat, stream: Stream) returns (ok: bool, spans: seq<Span>)
    ensures Inside(spans, base, end)
    ensures ok <==>
      && TableStart(count, Sizes(count, heaps), base, LAST + 1) <= end
      && Identified(count, heaps, base, stream, Rows(count, 2))
  {
    hide RowSize, Sizes, TableStart, Inside, Identified, Owned, ConstantCell, TypeCells, Cell;
    NothingIsInside(base, end);
    var starts, fields, more;
    ok, starts := LayOut(count, heaps, base, end);
    if !ok {
      return false, [];
    }
    spans := WalkResources(count, heaps, base, end, starts);
    ok, fields, more := FindIdentity(count, heaps, base, end, starts, stream);
    InsideMore(spans, more, base, end);
    spans := spans + more;
    if ok {
      more := WalkConstants(count, heaps, base, end, starts, stream, fields);
      InsideMore(spans, more, base, end);
      spans := spans + more;
    }
  }

  lemma NothingIsInside(base: nat, end: nat)
    ensures Inside([], base, end)
  {
  }

  lemma FirstStarts(count: Counts, heaps: Heaps, a: Column, b: Column, c: Column, d: Column, rest: Columns)
    ensures var columns := Then(a, Then(b, Then(c, Then(d, rest))));
      && StartOf(count, heaps, columns, 1) == Width(count, heaps, a)
      && StartOf(count, heaps, columns, 2) == Width(count, heaps, a) + Width(count, heaps, b)
      && StartOf(count, heaps, columns, 3) == Width(count, heaps, a) + Width(count, heaps, b) + Width(count, heaps, c)
      && StartOf(count, heaps, columns, 4)
        == Width(count, heaps, a) + Width(count, heaps, b) + Width(count, heaps, c) + Width(count, heaps, d)
  {
    hide Width;
    ShortStarts(count, heaps, a, b, Then(c, Then(d, rest)));
    ShortStarts(count, heaps, c, d, rest);
    assert StartOf(count, heaps, Then(b, Then(c, Then(d, rest))), 3)
      == Width(count, heaps, b) + StartOf(count, heaps, Then(c, Then(d, rest)), 2);
  }

  lemma ShortStarts(count: Counts, heaps: Heaps, a: Column, b: Column, rest: Columns)
    ensures StartOf(count, heaps, Then(a, Then(b, rest)), 1) == Width(count, heaps, a)
    ensures StartOf(count, heaps, Then(a, Then(b, rest)), 2) == Width(count, heaps, a) + Width(count, heaps, b)
  {
    hide Width;
    assert StartOf(count, heaps, rest, 0) == 0;
    assert StartOf(count, heaps, Then(b, rest), 1) == Width(count, heaps, b);
  }
}
