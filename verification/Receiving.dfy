/** The receiving transformation: deduplicate, quarantine conflicts, classify, and write canonically. */
module Receiving {
  import opened Model
  import opened Planner

  type Field = Option<string>

  datatype Key = Key(shipment: Field, line: Field)
  datatype Version = Version(sku: Field, warehouse: Field, quantity: Field, unit: Field)
  datatype Shipment = Shipment(key: Key, version: Version)
  datatype Product = Product(sku: Field, description: Field, unit: Field)

  datatype Accepted = Accepted(key: Key, sku: Field, warehouse: Field, quantity: nat, unit: Field)
  datatype Rejected = Rejected(row: Shipment, reason: string)

  const INVALID_DIMENSION := Failure("INVALID_DIMENSION", DataQuality, false)

  // ----- Fields -----

  /** What `str.strip` removes. */
  predicate Space(c: char) {
    var n := c as int;
    || 9 <= n <= 13 || 28 <= n <= 32 || n == 133 || n == 160 || n == 5760 || 8192 <= n <= 8202
    || n == 8232 || n == 8233 || n == 8239 || n == 8287 || n == 12288
  }

  predicate Missing(f: Field) {
    f.None? || forall c | c in f.value :: Space(c)
  }

  /** The code points that `str.strip` removes. */
  const WHITESPACE: set<int> :=
    {9, 10, 11, 12, 13, 28, 29, 30, 31, 32, 133, 160, 5760, 8192, 8193, 8194, 8195, 8196, 8197, 8198, 8199, 8200, 8201,
     8202, 8232, 8233, 8239, 8287, 12288}

  /** The field is there, and not only white space. */
  ghost predicate Present(f: Field) {
    f.Some? && exists c | c in f.value :: c as int !in WHITESPACE
  }

  lemma PresentOrMissing(f: Field)
    ensures Present(f) <==> !Missing(f)
    ensures Present(f) ==> f.Some?
  {
    if f.Some? {
      forall c | c in f.value ensures Space(c) <==> c as int in WHITESPACE {
      }
    }
  }

  predicate Decimal(s: string) {
    forall i | 0 <= i < |s| :: '0' <= s[i] <= '9'
  }

  function Digits(s: string): nat
    requires Decimal(s)
  {
    if s == "" then 0 else 10 * Digits(s[..|s| - 1]) + (s[|s| - 1] as int - '0' as int)
  }

  /** A quantity is 1 to 18 ASCII digits with a value of at least one and at most `maximum`. */
  predicate ValidQuantity(f: Field, maximum: int) {
    f.Some? && f.value != "" && Decimal(f.value) && |f.value| <= 18 && 0 < Digits(f.value) <= maximum
  }

  // ----- The dimension -----

  predicate CompleteProduct(p: Product) {
    !Missing(p.sku) && !Missing(p.description) && !Missing(p.unit)
  }

  /** Every field of every product has text, and no SKU occurs twice. */
  ghost predicate ValidProducts(products: seq<Product>) {
    && (forall p | p in products :: Present(p.sku) && Present(p.description) && Present(p.unit))
    && (forall i, j | 0 <= i < j < |products| :: products[i].sku != products[j].sku)
  }

  /** One unit per SKU. */
  ghost predicate Describes(dimension: map<string, string>, products: seq<Product>) {
    && (forall p | p in products ::
          p.sku.Some? && p.unit.Some? && p.sku.value in dimension && dimension[p.sku.value] == p.unit.value)
    && (forall sku | sku in dimension :: exists p :: p in products && p.sku == Some(sku))
  }

  method BuildDimension(products: seq<Product>) returns (r: Outcome<map<string, string>>)
    ensures r.Ok? <==> ValidProducts(products)
    ensures r.Ok? ==> Describes(r.value, products)
    ensures r.Err? ==> r.error == INVALID_DIMENSION
  {
    hide Present, Missing;
    var dimension: map<string, string> := map[];
    for i := 0 to |products|
      invariant ValidProducts(products[..i]) && Describes(dimension, products[..i])
    {
      var p := products[i];
      assert products[..i + 1] == products[..i] + [p];
      PresentOrMissing(p.sku);
      PresentOrMissing(p.description);
      PresentOrMissing(p.unit);
      if !CompleteProduct(p) {
        assert p in products;
        return Err(INVALID_DIMENSION);
      }
      if p.sku.value in dimension {
        var q :| q in products[..i] && q.sku == p.sku;
        var j :| 0 <= j < i && products[..i][j] == q;
        assert products[j].sku == products[i].sku;
        return Err(INVALID_DIMENSION);
      }
      dimension := dimension[p.sku.value := p.unit.value];
      forall q | q in products[..i + 1]
        ensures q.sku.Some? && q.unit.Some? && q.sku.value in dimension && dimension[q.sku.value] == q.unit.value
      {
        if q != p {
          assert q in products[..i];
        }
      }
      forall sku | sku in dimension ensures exists q :: q in products[..i + 1] && q.sku == Some(sku) {
        if sku == p.sku.value {
          assert p in products[..i + 1] && p.sku == Some(sku);
        } else {
          var q :| q in products[..i] && q.sku == Some(sku);
          assert q in products[..i + 1];
        }
      }
    }
    assert products[..|products|] == products;
    r := Ok(dimension);
  }

  // ----- Classification -----

  /** The distinct versions of one key. */
  function VersionsOf(rows: set<Shipment>, key: Key): set<Version> {
    set row | row in rows && row.key == key :: row.version
  }

  /** Why a version of a key with `versions` distinct versions is rejected, if it is. */
  function Reason(row: Shipment, versions: nat, dimension: map<string, string>, maximum: int): Option<string> {
    if Missing(row.key.shipment) || Missing(row.key.line) then Some("missing_shipment_key")
    else if versions != 1 then Some("conflicting_shipment_key")
    else if !ValidQuantity(row.version.quantity, maximum) then Some("invalid_quantity")
    else if row.version.sku.None? || row.version.sku.value !in dimension then Some("unknown_sku")
    else if Missing(row.version.warehouse) then Some("missing_warehouse")
    else if row.version.unit != Some(dimension[row.version.sku.value]) then Some("unit_mismatch")
    else None
  }

  function ReasonIn(rows: set<Shipment>, row: Shipment, dimension: map<string, string>, maximum: int): Option<string> {
    Reason(row, |VersionsOf(rows, row.key)|, dimension, maximum)
  }

  function Accept(row: Shipment): Accepted {
    Accepted(row.key, row.version.sku, row.version.warehouse,
             if row.version.quantity.Some? && Decimal(row.version.quantity.value)
             then Digits(row.version.quantity.value) else 0,
             row.version.unit)
  }

  /** The accepted rows among `some`, judged within `rows`. */
  ghost function AcceptedOf(rows: set<Shipment>, some: set<Shipment>, dimension: map<string, string>, maximum: int)
    : set<Accepted>
  {
    set row | row in some && ReasonIn(rows, row, dimension, maximum).None? :: Accept(row)
  }

  ghost function RejectedOf(rows: set<Shipment>, some: set<Shipment>, dimension: map<string, string>, maximum: int)
    : set<Rejected>
  {
    set row | row in some && ReasonIn(rows, row, dimension, maximum).Some? ::
      Rejected(row, ReasonIn(rows, row, dimension, maximum).value)
  }

  /** `list` holds every member of `members` once, and nothing else. */
  ghost predicate Lists<T>(list: seq<T>, members: set<T>) {
    multiset(list) == multiset(members)
  }

  lemma ListOneMore<T>(list: seq<T>, members: set<T>, x: T)
    requires Lists(list, members) && x !in members
    ensures Lists(list + [x], members + {x})
  {
  }

  /** Two distinct rows of one key make it a conflict. */
  lemma TwoVersionsConflict(rows: set<Shipment>, a: Shipment, b: Shipment)
    requires a in rows && b in rows && a != b && a.key == b.key
    ensures |VersionsOf(rows, a.key)| >= 2
  {
    var versions := VersionsOf(rows, a.key);
    assert a.version in versions && b.version in versions && a.version != b.version;
    assert |versions - {a.version} - {b.version}| >= 0;
    assert versions == versions - {a.version} - {b.version} + {a.version} + {b.version};
  }

  /** Accepted rows of distinct shipments have distinct keys, so none is listed twice. */
  lemma AcceptedKeysAreUnique(
    rows: set<Shipment>, a: Shipment, b: Shipment, dimension: map<string, string>, maximum: int
  )
    requires a in rows && b in rows && a.key == b.key
    requires ReasonIn(rows, a, dimension, maximum).None? && ReasonIn(rows, b, dimension, maximum).None?
    ensures a == b
  {
    if a != b {
      TwoVersionsConflict(rows, a, b);
    }
  }

  /** A key with two distinct versions contributes no accepted row. */
  lemma ConflictsAreQuarantined(
    rows: set<Shipment>, a: Shipment, b: Shipment, dimension: map<string, string>, maximum: int, accepted: Accepted
  )
    requires a in rows && b in rows && a != b && a.key == b.key
    requires accepted in AcceptedOf(rows, rows, dimension, maximum)
    ensures accepted.key != a.key
  {
    TwoVersionsConflict(rows, a, b);
  }

  /** Every distinct row is accepted once or rejected once. */
  lemma {:induction false} EachRowOnce(
    rows: set<Shipment>, some: set<Shipment>, dimension: map<string, string>, maximum: int
  )
    requires some <= rows
    ensures |AcceptedOf(rows, some, dimension, maximum)| + |RejectedOf(rows, some, dimension, maximum)| == |some|
  {
    if some == {} {
      assert AcceptedOf(rows, some, dimension, maximum) == {} && RejectedOf(rows, some, dimension, maximum) == {};
    } else {
      var row :| row in some;
      EachRowOnce(rows, some - {row}, dimension, maximum);
      OneRowMore(rows, some - {row}, row, dimension, maximum);
      assert some - {row} + {row} == some;
    }
  }

  lemma OneRowMore(
    rows: set<Shipment>, some: set<Shipment>, row: Shipment, dimension: map<string, string>, maximum: int
  )
    requires some <= rows && row in rows && row !in some
    ensures var reason := ReasonIn(rows, row, dimension, maximum);
            var accepted, rejected :=
              AcceptedOf(rows, some, dimension, maximum), RejectedOf(rows, some, dimension, maximum);
            if reason.None? then
              && Accept(row) !in accepted
              && AcceptedOf(rows, some + {row}, dimension, maximum) == accepted + {Accept(row)}
              && RejectedOf(rows, some + {row}, dimension, maximum) == rejected
            else
              && Rejected(row, reason.value) !in rejected
              && AcceptedOf(rows, some + {row}, dimension, maximum) == accepted
              && RejectedOf(rows, some + {row}, dimension, maximum) == rejected + {Rejected(row, reason.value)}
  {
    var reason := ReasonIn(rows, row, dimension, maximum);
    if reason.None? && Accept(row) in AcceptedOf(rows, some, dimension, maximum) {
      var other :| other in some && ReasonIn(rows, other, dimension, maximum).None? && Accept(other) == Accept(row);
      AcceptedKeysAreUnique(rows, row, other, dimension, maximum);
    }
  }

  // ----- What is accepted, and why a row is rejected -----

  /** The decimal text of a number. */
  function Shown(n: nat): string {
    if n < 10 then [('0' as int + n) as char] else Shown(n / 10) + [('0' as int + n % 10) as char]
  }

  function Zeros(count: nat): string {
    seq(count, _ => '0')
  }

  /** The field is the decimal text of `n`, with leading zeros or not, in at most 18 characters. */
  ghost predicate Shows(f: Field, n: nat) {
    f.Some? && |f.value| <= 18 && exists zeros: nat :: f.value == Zeros(zeros) + Shown(n)
  }

  lemma {:induction false} ShownDigits(n: nat)
    ensures Shown(n) != "" && Decimal(Shown(n)) && Digits(Shown(n)) == n
  {
    if n >= 10 {
      ShownDigits(n / 10);
      var s := Shown(n);
      assert s[..|s| - 1] == Shown(n / 10);
    } else {
      assert Shown(n)[..0] == "";
    }
  }

  lemma {:induction false} LeadingZeros(count: nat, s: string)
    requires Decimal(s)
    ensures Decimal(Zeros(count) + s) && Digits(Zeros(count) + s) == Digits(s)
  {
    var text := Zeros(count) + s;
    if s == "" {
      if count > 0 {
        LeadingZeros(count - 1, s);
        assert text[..|text| - 1] == Zeros(count - 1) + s;
      } else {
        assert text == "";
      }
    } else {
      LeadingZeros(count, s[..|s| - 1]);
      assert text[..|text| - 1] == Zeros(count) + s[..|s| - 1];
    }
  }

  lemma OneDigitMore(n: nat, digit: nat)
    requires n > 0 && digit < 10
    ensures Shown(10 * n + digit) == Shown(n) + [('0' as int + digit) as char]
  {
    assert (10 * n + digit) / 10 == n && (10 * n + digit) % 10 == digit;
  }

  /** Every text of digits shows its value. */
  lemma {:induction false} DigitsShown(s: string) returns (zeros: nat)
    requires Decimal(s) && s != ""
    ensures s == Zeros(zeros) + Shown(Digits(s))
  {
    var init, last := s[..|s| - 1], s[|s| - 1];
    assert s == init + [last];
    var digit := last as int - '0' as int;
    assert [('0' as int + digit) as char] == [last];
    if init == "" {
      zeros := 0;
      assert Digits(init) == 0;
    } else {
      zeros := DigitsShown(init);
      if Digits(init) == 0 {
        assert Zeros(zeros + 1) == Zeros(zeros) + Shown(0);
        zeros := zeros + 1;
      } else {
        OneDigitMore(Digits(init), digit);
      }
    }
  }

  /** A quantity is valid exactly when it shows a number in range, which is its value. */
  lemma ValidShows(f: Field, maximum: int)
    ensures ValidQuantity(f, maximum) <==> exists n: nat :: Shows(f, n) && 1 <= n <= maximum
    ensures forall n: nat | Shows(f, n) :: Decimal(f.value) && Digits(f.value) == n
  {
    forall n: nat | Shows(f, n) ensures Decimal(f.value) && Digits(f.value) == n {
      var zeros: nat :| f.value == Zeros(zeros) + Shown(n);
      ShownDigits(n);
      LeadingZeros(zeros, Shown(n));
    }
    if ValidQuantity(f, maximum) {
      var zeros := DigitsShown(f.value);
      assert Shows(f, Digits(f.value));
    }
    if n: nat :| Shows(f, n) && 1 <= n <= maximum {
      ShownDigits(n);
    }
  }

  const REASONS := ["missing_shipment_key", "conflicting_shipment_key", "invalid_quantity", "unknown_sku",
                    "missing_warehouse", "unit_mismatch"]

  /** The faults of a row, in the order of their reasons. */
  ghost predicate Fault(rows: set<Shipment>, row: Shipment, dimension: map<string, string>, maximum: int, i: nat)
  {
    var v := row.version;
    match i
    case 0 => !Present(row.key.shipment) || !Present(row.key.line)
    case 1 => exists other | other in rows :: other.key == row.key && other.version != v
    case 2 => forall n: nat | Shows(v.quantity, n) :: n < 1 || n > maximum
    case 3 => v.sku.None? || v.sku.value !in dimension
    case 4 => !Present(v.warehouse)
    case 5 => v.sku.Some? && v.sku.value in dimension && v.unit != Some(dimension[v.sku.value])
    case _ => false
  }

  ghost predicate FirstFault(rows: set<Shipment>, row: Shipment, dimension: map<string, string>, maximum: int, i: nat)
  {
    Fault(rows, row, dimension, maximum, i) && forall j | 0 <= j < i :: !Fault(rows, row, dimension, maximum, j)
  }

  ghost predicate Sound(rows: set<Shipment>, row: Shipment, dimension: map<string, string>, maximum: int) {
    forall i | 0 <= i < |REASONS| :: !Fault(rows, row, dimension, maximum, i)
  }

  lemma ConflictIsFault(rows: set<Shipment>, row: Shipment)
    requires row in rows
    ensures |VersionsOf(rows, row.key)| != 1 <==>
            exists other | other in rows :: other.key == row.key && other.version != row.version
  {
    var versions := VersionsOf(rows, row.key);
    if other :| other in rows && other.key == row.key && other.version != row.version {
      TwoVersionsConflict(rows, row, other);
    } else {
      assert versions == {row.version};
    }
  }

  /** A row is rejected for its first fault, and accepted when it has none. */
  lemma ReasonIsFirstFault(rows: set<Shipment>, row: Shipment, dimension: map<string, string>, maximum: int)
    requires row in rows
    ensures ReasonIn(rows, row, dimension, maximum).None? <==> Sound(rows, row, dimension, maximum)
    ensures forall i | 0 <= i < |REASONS| ::
              FirstFault(rows, row, dimension, maximum, i) <==>
              ReasonIn(rows, row, dimension, maximum) == Some(REASONS[i])
  {
    PresentOrMissing(row.key.shipment);
    PresentOrMissing(row.key.line);
    PresentOrMissing(row.version.warehouse);
    ConflictIsFault(rows, row);
    ValidShows(row.version.quantity, maximum);
    hide Present, Missing, Shows, ValidQuantity, VersionsOf;
    var key, conflict, quantity := Fault(rows, row, dimension, maximum, 0), Fault(rows, row, dimension, maximum, 1),
                                   Fault(rows, row, dimension, maximum, 2);
    var sku, warehouse, unit := Fault(rows, row, dimension, maximum, 3), Fault(rows, row, dimension, maximum, 4),
                                Fault(rows, row, dimension, maximum, 5);
  }

  /** What the two outputs hold: the sound rows with the value of their quantity, and every other row with the
      reason of its first fault. */
  ghost predicate Classified(
    rows: set<Shipment>, dimension: map<string, string>, maximum: int, accepted: seq<Accepted>, rejected: seq<Rejected>
  ) {
    && (forall a :: a in accepted <==>
          exists row | row in rows ::
            && Sound(rows, row, dimension, maximum) && Shows(row.version.quantity, a.quantity)
            && a == Accepted(row.key, row.version.sku, row.version.warehouse, a.quantity, row.version.unit))
    && (forall x :: x in rejected <==>
          && x.row in rows
          && exists i | 0 <= i < |REASONS| ::
               FirstFault(rows, x.row, dimension, maximum, i) && x.reason == REASONS[i])
  }

  /** The two classes are exactly these. */
  lemma ListsAreClassified(
    rows: set<Shipment>, dimension: map<string, string>, maximum: int, accepted: seq<Accepted>, rejected: seq<Rejected>
  )
    requires Lists(accepted, AcceptedOf(rows, rows, dimension, maximum))
    requires Lists(rejected, RejectedOf(rows, rows, dimension, maximum))
    ensures Classified(rows, dimension, maximum, accepted, rejected)
  {
    hide Reason, Sound, FirstFault, Shows;
    forall row | row in rows {
      ReasonIsFirstFault(rows, row, dimension, maximum);
    }
    forall a ensures a in accepted <==> a in AcceptedOf(rows, rows, dimension, maximum) {
      assert a in multiset(accepted) <==> a in AcceptedOf(rows, rows, dimension, maximum);
    }
    forall x ensures x in rejected <==> x in RejectedOf(rows, rows, dimension, maximum) {
      assert x in multiset(rejected) <==> x in RejectedOf(rows, rows, dimension, maximum);
    }
    forall row, n: nat | row in rows && Sound(rows, row, dimension, maximum)
      ensures Shows(row.version.quantity, n) <==> n == Accept(row).quantity
    {
      SoundQuantity(rows, row, dimension, maximum, n);
    }
    forall row | row in rows && ReasonIn(rows, row, dimension, maximum).Some?
      ensures exists i :: 0 <= i < |REASONS| && ReasonIn(rows, row, dimension, maximum) == Some(REASONS[i])
    {
      ReasonIsListed(rows, row, dimension, maximum);
    }
  }

  lemma ReasonIsListed(rows: set<Shipment>, row: Shipment, dimension: map<string, string>, maximum: int)
    requires ReasonIn(rows, row, dimension, maximum).Some?
    ensures exists i :: 0 <= i < |REASONS| && ReasonIn(rows, row, dimension, maximum) == Some(REASONS[i])
  {
    var reason := ReasonIn(rows, row, dimension, maximum).value;
    assert reason == REASONS[0] || reason == REASONS[1] || reason == REASONS[2] || reason == REASONS[3]
        || reason == REASONS[4] || reason == REASONS[5];
  }

  lemma SoundQuantity(rows: set<Shipment>, row: Shipment, dimension: map<string, string>, maximum: int, n: nat)
    requires row in rows && Sound(rows, row, dimension, maximum)
    ensures Shows(row.version.quantity, n) <==> n == Accept(row).quantity
  {
    ValidShows(row.version.quantity, maximum);
    assert !Fault(rows, row, dimension, maximum, 2);
    var m: nat :| Shows(row.version.quantity, m) && 1 <= m <= maximum;
  }

  // ----- The transformation -----

  function RowsIn(shipments: seq<Shipment>): set<Shipment> {
    set row | row in shipments
  }

  function KeysOf(rows: set<Shipment>): set<Key> {
    set row | row in rows :: row.key
  }

  /** The grouping dictionary of the rows seen so far. */
  ghost predicate Grouped(byKey: map<Key, set<Version>>, rows: set<Shipment>) {
    && byKey.Keys == KeysOf(rows)
    && (forall key | key in byKey :: byKey[key] == VersionsOf(rows, key))
  }

  method GroupByKey(shipments: seq<Shipment>) returns (byKey: map<Key, set<Version>>)
    ensures Grouped(byKey, RowsIn(shipments))
  {
    byKey := map[];
    for i := 0 to |shipments|
      invariant Grouped(byKey, RowsIn(shipments[..i]))
    {
      var row := shipments[i];
      assert shipments[..i + 1] == shipments[..i] + [row];
      assert RowsIn(shipments[..i + 1]) == RowsIn(shipments[..i]) + {row};
      GroupOne(byKey, RowsIn(shipments[..i]), row);
      var versions := if row.key in byKey then byKey[row.key] else {};
      byKey := byKey[row.key := versions + {row.version}];
    }
    assert shipments[..|shipments|] == shipments;
  }

  lemma GroupOne(byKey: map<Key, set<Version>>, rows: set<Shipment>, row: Shipment)
    requires Grouped(byKey, rows)
    ensures var versions := if row.key in byKey then byKey[row.key] else {};
            Grouped(byKey[row.key := versions + {row.version}], rows + {row})
  {
    var versions := if row.key in byKey then byKey[row.key] else {};
    var byKey' := byKey[row.key := versions + {row.version}];
    if row.key !in byKey {
      assert VersionsOf(rows, row.key) == {};
    }
    assert VersionsOf(rows + {row}, row.key) == versions + {row.version};
    forall key | key in byKey && key != row.key ensures byKey'[key] == VersionsOf(rows + {row}, key) {
      assert VersionsOf(rows + {row}, key) == VersionsOf(rows, key);
    }
    assert KeysOf(rows + {row}) == KeysOf(rows) + {row.key};
  }

  /** The rows of the keys that are no longer to be done. */
  function RowsOutside(rows: set<Shipment>, todo: set<Key>): set<Shipment> {
    set row | row in rows && row.key !in todo
  }

  /** `transform_python`. The outputs list the two classes of the distinct rows, each member once. Keys and
      versions are visited in any order: the bytes written do not depend on it. */
  method TransformPython(shipments: seq<Shipment>, products: seq<Product>, maximum: int)
    returns (r: Outcome<(seq<Accepted>, seq<Rejected>)>, ghost dimension: map<string, string>)
    ensures r.Ok? <==> ValidProducts(products)
    ensures r.Err? ==> r.error == INVALID_DIMENSION
    ensures r.Ok? ==>
              var rows := RowsIn(shipments);
              && Describes(dimension, products)
              && Lists(r.value.0, AcceptedOf(rows, rows, dimension, maximum))
              && Lists(r.value.1, RejectedOf(rows, rows, dimension, maximum))
              && Classified(rows, dimension, maximum, r.value.0, r.value.1)
  {
    var built := BuildDimension(products);
    if built.Err? {
      return Err(built.error), map[];
    }
    dimension := built.value;
    var byKey := GroupByKey(shipments);
    ghost var rows := RowsIn(shipments);
    var accepted: seq<Accepted>, rejected: seq<Rejected> := [], [];
    var todo := byKey.Keys;
    assert RowsOutside(rows, todo) == {};
    while todo != {}
      invariant todo <= byKey.Keys
      invariant Lists(accepted, AcceptedOf(rows, RowsOutside(rows, todo), dimension, maximum))
      invariant Lists(rejected, RejectedOf(rows, RowsOutside(rows, todo), dimension, maximum))
    {
      var key :| key in todo;
      accepted, rejected :=
        ClassifyKey(key, byKey[key], built.value, maximum, accepted, rejected, rows, RowsOutside(rows, todo));
      todo := todo - {key};
      assert RowsOutside(rows, todo) == RowsOutside(rows, todo + {key}) + (set v | v in byKey[key] :: Shipment(key, v));
    }
    assert RowsOutside(rows, todo) == rows;
    ListsAreClassified(rows, dimension, maximum, accepted, rejected);
    r := Ok((accepted, rejected));
  }

  /** All versions of one key. */
  method ClassifyKey(
    key: Key, versions: set<Version>, dimension: map<string, string>, maximum: int,
    accepted: seq<Accepted>, rejected: seq<Rejected>, ghost rows: set<Shipment>, ghost done: set<Shipment>
  ) returns (accepted': seq<Accepted>, rejected': seq<Rejected>)
    requires versions == VersionsOf(rows, key) && done <= rows && forall row | row in done :: row.key != key
    requires Lists(accepted, AcceptedOf(rows, done, dimension, maximum))
    requires Lists(rejected, RejectedOf(rows, done, dimension, maximum))
    ensures var done' := done + (set v | v in versions :: Shipment(key, v));
            && Lists(accepted', AcceptedOf(rows, done', dimension, maximum))
            && Lists(rejected', RejectedOf(rows, done', dimension, maximum))
  {
    accepted', rejected' := accepted, rejected;
    var todo := versions;
    ghost var seen := done;
    assert done + (set v | v in versions && v !in todo :: Shipment(key, v)) == done;
    while todo != {}
      invariant todo <= versions && seen <= rows
      invariant seen == done + (set v | v in versions && v !in todo :: Shipment(key, v))
      invariant Lists(accepted', AcceptedOf(rows, seen, dimension, maximum))
      invariant Lists(rejected', RejectedOf(rows, seen, dimension, maximum))
    {
      var version :| version in todo;
      var row := Shipment(key, version);
      OneRowMore(rows, seen, row, dimension, maximum);
      var reason := Reason(row, |versions|, dimension, maximum);
      if reason.Some? {
        ListOneMore(rejected', RejectedOf(rows, seen, dimension, maximum), Rejected(row, reason.value));
        rejected' := rejected' + [Rejected(row, reason.value)];
      } else {
        ListOneMore(accepted', AcceptedOf(rows, seen, dimension, maximum), Accept(row));
        accepted' := accepted' + [Accept(row)];
      }
      todo := todo - {version};
      seen := seen + {row};
    }
    assert (set v | v in versions && v !in todo :: Shipment(key, v)) == set v | v in versions :: Shipment(key, v);
  }

  // ----- Canonical output -----

  /** The products determine the dimension, in whatever order they are listed. */
  lemma DimensionIsDetermined(
    d: map<string, string>, d': map<string, string>, products: seq<Product>, products': seq<Product>
  )
    requires Describes(d, products) && Describes(d', products')
    requires forall p :: p in products <==> p in products'
    ensures d == d'
  {
    forall sku | sku in d ensures sku in d' && d'[sku] == d[sku] {
      var p :| p in products && p.sku == Some(sku);
      assert p in products';
    }
    forall sku | sku in d' ensures sku in d {
      var p :| p in products' && p.sku == Some(sku);
      assert p in products;
    }
  }

  /** Permuting or duplicating shipments, or permuting products, changes neither output file. */
  lemma OutputsIgnoreOrder(
    shipments: seq<Shipment>, shipments': seq<Shipment>, products: seq<Product>, products': seq<Product>, maximum: int,
    d: map<string, string>, d': map<string, string>, accepted: seq<Accepted>, accepted': seq<Accepted>,
    rejected: seq<Rejected>, rejected': seq<Rejected>, acceptedText: Accepted -> string,
    rejectedText: Rejected -> string
  )
    requires forall row :: row in shipments <==> row in shipments'
    requires forall p :: p in products <==> p in products'
    requires Describes(d, products) && Describes(d', products')
    requires var rows := RowsIn(shipments);
             Lists(accepted, AcceptedOf(rows, rows, d, maximum)) && Lists(rejected, RejectedOf(rows, rows, d, maximum))
    requires var rows := RowsIn(shipments');
             Lists(accepted', AcceptedOf(rows, rows, d', maximum))
             && Lists(rejected', RejectedOf(rows, rows, d', maximum))
    requires Injective(acceptedText) && Injective(rejectedText)
    ensures Sorted(accepted, acceptedText) == Sorted(accepted', acceptedText)
    ensures Sorted(rejected, rejectedText) == Sorted(rejected', rejectedText)
  {
    assert RowsIn(shipments) == RowsIn(shipments');
    DimensionIsDetermined(d, d', products, products');
    SortedIgnoresOrder(accepted, accepted', acceptedText);
    SortedIgnoresOrder(rejected, rejected', rejectedText);
  }

  ghost predicate Injective<T(!new)>(text: T -> string) {
    forall x, y :: text(x) == text(y) ==> x == y
  }

  function Inserted<T>(x: T, rows: seq<T>, text: T -> string): (r: seq<T>)
    ensures multiset(r) == multiset(rows) + multiset{x}
  {
    if rows == [] then [x]
    else if Less(text(rows[0]), text(x)) then
      assert rows == [rows[0]] + rows[1..];
      [rows[0]] + Inserted(x, rows[1..], text)
    else [x] + rows
  }

  /** `sorted(rows, key=canonical)`. */
  function Sorted<T>(rows: seq<T>, text: T -> string): (r: seq<T>)
    ensures multiset(r) == multiset(rows)
  {
    if rows == [] then []
    else
      assert rows == [rows[0]] + rows[1..];
      Inserted(rows[0], Sorted(rows[1..], text), text)
  }

  ghost predicate Ordered<T>(rows: seq<T>, text: T -> string) {
    forall i, j | 0 <= i < j < |rows| :: !Less(text(rows[j]), text(rows[i]))
  }

  lemma {:induction false} InsertedIsOrdered<T>(x: T, rows: seq<T>, text: T -> string)
    requires Ordered(rows, text)
    ensures Ordered(Inserted(x, rows, text), text)
  {
    if rows != [] {
      if Less(text(rows[0]), text(x)) {
        InsertedIsOrdered(x, rows[1..], text);
        var rest := Inserted(x, rows[1..], text);
        forall j | 0 <= j < |rest| ensures !Less(text(rest[j]), text(rows[0])) {
          assert rest[j] in multiset(rest);
          LessIsTotal(text(x), text(rows[0]));
        }
      } else {
        forall j | 0 <= j < |rows| ensures !Less(text(rows[j]), text(x)) {
          if Less(text(rows[j]), text(x)) {
            LessIsTotal(text(rows[0]), text(rows[j]));
            if text(rows[0]) != text(rows[j]) {
              LessIsTransitive(text(rows[0]), text(rows[j]), text(x));
            }
          }
        }
      }
    }
  }

  lemma {:induction false} SortedIsOrdered<T>(rows: seq<T>, text: T -> string)
    ensures Ordered(Sorted(rows, text), text)
  {
    if rows != [] {
      SortedIsOrdered(rows[1..], text);
      InsertedIsOrdered(rows[0], Sorted(rows[1..], text), text);
    }
  }

  /** Two ordered lists of the same members are the same list. */
  lemma {:induction false} OrderedIsUnique<T(!new)>(a: seq<T>, b: seq<T>, text: T -> string)
    requires Injective(text) && Ordered(a, text) && Ordered(b, text) && multiset(a) == multiset(b)
    ensures a == b
    decreases |a|
  {
    hide Less;
    if a == [] {
      assert |multiset(b)| == 0;
    } else {
      assert |multiset(a)| == |multiset(b)|;
      assert a[0] in multiset(b) && b[0] in multiset(a);
      var i :| 0 <= i < |b| && b[i] == a[0];
      var j :| 0 <= j < |a| && a[j] == b[0];
      LessIsTotal(text(a[0]), text(b[0]));
      assert a[0] == b[0];
      assert a == [a[0]] + a[1..] && b == [b[0]] + b[1..];
      assert multiset(a[1..]) == multiset(a) - multiset{a[0]};
      OrderedIsUnique(a[1..], b[1..], text);
    }
  }

  lemma SortedIgnoresOrder<T(!new)>(a: seq<T>, b: seq<T>, text: T -> string)
    requires Injective(text) && multiset(a) == multiset(b)
    ensures Sorted(a, text) == Sorted(b, text)
  {
    SortedIsOrdered(a, text);
    SortedIsOrdered(b, text);
    OrderedIsUnique(Sorted(a, text), Sorted(b, text), text);
  }
}
