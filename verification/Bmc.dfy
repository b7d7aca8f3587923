/** The best master clock algorithm of bmc.c: data set comparison, the choice among foreign masters and the
    recommended port state. */
module Bmc {

  const IDENTITY_LENGTH: nat := 8
  const CLASS_LIMIT: nat := 128

  type Identity = s: seq<nat> | |s| == IDENTITY_LENGTH witness [0, 0, 0, 0, 0, 0, 0, 0]

  /** C's int16_t: offsetScaledLogVariance and stepsRemoved are declared so, and unpacked so from 16 unsigned bits. */
  type Int16 = x: int | -0x8000 <= x < 0x8000

  /** The unsigned number that was sent. */
  function Wire(x: Int16): (w: nat)
    ensures w < 0x1_0000 && (w == x || w == x + 0x1_0000)
  {
    if x < 0 then x + 0x1_0000 else x
  }

  /** The fields of an Announce message and its header that the comparison reads. */
  datatype Record = Record(
    source: Identity, port: Int16,
    priority1: nat, clockClass: nat, accuracy: nat, variance: Int16, priority2: nat,
    grandmaster: Identity, steps: Int16)

  /** The sign of memcmp over sequences of one length. */
  function MemCmp(a: seq<int>, b: seq<int>): (c: int)
    requires |a| == |b|
    ensures -1 <= c <= 1
    decreases a
  {
    if a == [] then 0
    else if a[0] != b[0] then (if a[0] > b[0] then 1 else -1)
    else MemCmp(a[1..], b[1..])
  }

  /** The comparison of one attribute: the larger value is the worse clock. */
  function Attribute(a: int, b: int): int {
    if a > b then -1 else if b > a then 1 else 0
  }

  /** The attributes in the order in which the comparison looks at them. */
  function Attributes(a: Record): seq<int> {
    [a.priority1, a.clockClass, a.accuracy, a.variance, a.priority2]
  }

  /** Part 1 of the comparison, for different grandmasters. */
  function CompareGrandmasters(a: Record, b: Record): int {
    if a.priority1 != b.priority1 then Attribute(a.priority1, b.priority1)
    else if a.clockClass != b.clockClass then Attribute(a.clockClass, b.clockClass)
    else if a.accuracy != b.accuracy then Attribute(a.accuracy, b.accuracy)
    else if a.variance != b.variance then Attribute(a.variance, b.variance)
    else if a.priority2 != b.priority2 then Attribute(a.priority2, b.priority2)
    else -MemCmp(a.grandmaster, b.grandmaster)
  }

  /** Part 2, for one grandmaster: distance, then topology seen from the receiving port. */
  function CompareTopology(a: Record, b: Record, self: Identity): int {
    if a.steps > b.steps + 1 then -1
    else if b.steps > a.steps + 1 then 1
    else if a.steps > b.steps then (if MemCmp(a.source, self) != 0 then -1 else 0)
    else if a.steps < b.steps then (if MemCmp(b.source, self) != 0 then 1 else 0)
    else -MemCmp(a.source, b.source)
  }

  /** bmcDataSetComparison: 1 is named "A better", -1 "B better". */
  function Compare(a: Record, b: Record, self: Identity): int {
    if MemCmp(a.grandmaster, b.grandmaster) != 0 then CompareGrandmasters(a, b) else CompareTopology(a, b, self)
  }

  // ---- byte order ----

  lemma {:induction false} MemCmpZero(a: seq<int>, b: seq<int>)
    requires |a| == |b|
    ensures MemCmp(a, b) == 0 <==> a == b
    decreases a
  {
    if a != [] {
      MemCmpZero(a[1..], b[1..]);
      assert a == [a[0]] + a[1..] && b == [b[0]] + b[1..];
    }
  }

  lemma {:induction false} MemCmpReverse(a: seq<int>, b: seq<int>)
    requires |a| == |b|
    ensures MemCmp(a, b) == -MemCmp(b, a)
    decreases a
  {
    if a != [] {
      MemCmpReverse(a[1..], b[1..]);
    }
  }

  lemma {:induction false} MemCmpTransitive(a: seq<int>, b: seq<int>, c: seq<int>)
    requires |a| == |b| == |c| && MemCmp(a, b) <= 0 && MemCmp(b, c) <= 0
    ensures MemCmp(a, c) <= 0 && (MemCmp(a, b) < 0 || MemCmp(b, c) < 0 ==> MemCmp(a, c) < 0)
    decreases a
  {
    if a != [] {
      if a[0] == b[0] == c[0] {
        MemCmpTransitive(a[1..], b[1..], c[1..]);
      }
    }
  }

  lemma {:induction false} MemCmpConcat(a: seq<int>, b: seq<int>, x: seq<int>, y: seq<int>)
    requires |a| == |b| && |x| == |y|
    ensures MemCmp(a + x, b + y) == if MemCmp(a, b) != 0 then MemCmp(a, b) else MemCmp(x, y)
    decreases a
  {
    if a == [] {
      assert a + x == x && b + y == y;
    } else {
      assert (a + x)[1..] == a[1..] + x && (b + y)[1..] == b[1..] + y;
      MemCmpConcat(a[1..], b[1..], x, y);
    }
  }

  // ---- the comparison is an order ----

  /** Swapping the operands changes the sign, for all inputs. */
  lemma CompareReverse(a: Record, b: Record, self: Identity)
    ensures Compare(a, b, self) == -Compare(b, a, self)
  {
    MemCmpReverse(a.grandmaster, b.grandmaster);
    MemCmpReverse(a.source, b.source);
  }

  /** Everything the comparison can look at, the most significant first. */
  function Assemble(attributes: seq<int>, grandmaster: Identity, steps: int, source: Identity): (k: seq<int>)
    requires |attributes| == 5
    ensures |k| == 6 + 2 * IDENTITY_LENGTH
  {
    attributes + (grandmaster + ([steps] + source))
  }

  function Key(a: Record): (k: seq<int>)
    ensures |k| == 6 + 2 * IDENTITY_LENGTH
  {
    Assemble(Attributes(a), a.grandmaster, a.steps, a.source)
  }

  /** One grandmaster announces one set of attributes. */
  predicate Consistent(a: Record, b: Record) {
    a.grandmaster == b.grandmaster ==> Attributes(a) == Attributes(b)
  }

  /** One record, one hop farther from the same grandmaster than the other, was sent by the receiving clock. */
  predicate Echo(a: Record, b: Record, self: Identity) {
    && a.grandmaster == b.grandmaster
    && ((a.steps == b.steps + 1 && a.source == self) || (b.steps == a.steps + 1 && b.source == self))
  }

  lemma AttributesOrder(a: Record, b: Record)
    requires Attributes(a) != Attributes(b)
    ensures CompareGrandmasters(a, b) == -MemCmp(Attributes(a), Attributes(b)) != 0
  {
    MemCmpFirst(Attributes(a), Attributes(b));
    var x1, y1 := Attributes(a)[1..], Attributes(b)[1..];
    MemCmpFirst(x1, y1);
    var x2, y2 := x1[1..], y1[1..];
    MemCmpFirst(x2, y2);
    MemCmpFirst(x2[1..], y2[1..]);
    MemCmpFirst(x2[1..][1..], y2[1..][1..]);
  }

  lemma MemCmpFirst(a: seq<int>, b: seq<int>)
    requires |a| == |b| != 0
    ensures MemCmp(a, b) == if a[0] != b[0] then -Attribute(a[0], b[0]) else MemCmp(a[1..], b[1..])
  {
  }

  lemma AssembledOrder(x: seq<int>, y: seq<int>, g: Identity, h: Identity, m: int, n: int, a: Identity, b: Identity)
    requires |x| == |y| == 5
    ensures MemCmp(Assemble(x, g, m, a), Assemble(y, h, n, b))
         == if x != y then MemCmp(x, y) else if g != h then MemCmp(g, h)
            else if m != n then -Attribute(m, n) else MemCmp(a, b)
  {
    var u, v := [m] + a, [n] + b;
    MemCmpConcat(x, y, g + u, h + v);
    MemCmpConcat(g, h, u, v);
    MemCmpConcat([m], [n], a, b);
    MemCmpZero(x, y);
    MemCmpZero(g, h);
  }

  /** The comparison is the reverse of the byte order of the keys, except that an echo compares as equal. */
  lemma CompareIsKeyOrder(a: Record, b: Record, self: Identity)
    requires Consistent(a, b)
    ensures Compare(a, b, self) == if Echo(a, b, self) then 0 else -MemCmp(Key(a), Key(b))
  {
    AssembledOrder(Attributes(a), Attributes(b), a.grandmaster, b.grandmaster, a.steps, b.steps, a.source, b.source);
    MemCmpZero(a.grandmaster, b.grandmaster);
    MemCmpZero(a.source, self);
    MemCmpZero(b.source, self);
    if Attributes(a) != Attributes(b) {
      AttributesOrder(a, b);
    }
  }

  /** Without echoes it is transitive, and two records tie exactly when they are equally far from one
      grandmaster by way of one sender. */
  lemma CompareIsAnOrder(a: Record, b: Record, c: Record, self: Identity)
    requires Consistent(a, b) && Consistent(b, c) && Consistent(a, c)
    requires !Echo(a, b, self) && !Echo(b, c, self) && !Echo(a, c, self)
    ensures Compare(a, b, self) >= 0 && Compare(b, c, self) >= 0 ==> Compare(a, c, self) >= 0
    ensures Compare(a, b, self) == 0 <==> (a.grandmaster, a.steps, a.source) == (b.grandmaster, b.steps, b.source)
  {
    CompareIsKeyOrder(a, b, self);
    CompareIsKeyOrder(b, c, self);
    CompareIsKeyOrder(a, c, self);
    if MemCmp(Key(a), Key(b)) <= 0 && MemCmp(Key(b), Key(c)) <= 0 {
      MemCmpTransitive(Key(a), Key(b), Key(c));
    }
    MemCmpZero(Key(a), Key(b));
    KeyParts(a, b);
  }

  lemma KeyParts(a: Record, b: Record)
    ensures Key(a) == Key(b) <==>
            && Attributes(a) == Attributes(b) && a.grandmaster == b.grandmaster
            && a.steps == b.steps && a.source == b.source
  {
    var k, l := Key(a), Key(b);
    assert k[..5] == Attributes(a) && l[..5] == Attributes(b);
    assert k[5..13] == a.grandmaster && l[5..13] == b.grandmaster;
    assert k[13] == a.steps && l[13] == b.steps;
    assert k[14..] == a.source && l[14..] == b.source;
  }

  // ---- the choice among foreign masters ----

  /** Records of other clocks that agree on what each grandmaster announces. */
  ghost predicate Foreign(rs: seq<Record>, self: Identity) {
    && (forall i | 0 <= i < |rs| :: rs[i].source != self)
    && (forall i, j | 0 <= i < |rs| && 0 <= j < |rs| :: Consistent(rs[i], rs[j]))
  }

  /** The loop of bmc over the first n records. */
  function Scan(rs: seq<Record>, n: nat, self: Identity): (best: nat)
    requires n <= |rs| && rs != []
    ensures best < |rs| && (n > 0 ==> best < n)
  {
    if n <= 1 then 0
    else
      var best := Scan(rs, n - 1, self);
      if Compare(rs[n - 1], rs[best], self) < 0 then n - 1 else best
  }

  /** Only the first n records matter. */
  lemma {:induction false} ScanPrefix(rs: seq<Record>, n: nat, m: nat, self: Identity)
    requires 0 < n <= m <= |rs|
    ensures Scan(rs, n, self) == Scan(rs[..m], n, self)
  {
    if n > 1 {
      ScanPrefix(rs, n - 1, m, self);
    }
  }

  /** The scan ends at the first of the records against which none compares negative. */
  lemma {:induction false} ScanIsExtremal(rs: seq<Record>, n: nat, self: Identity)
    requires 0 < n <= |rs| && Foreign(rs, self)
    ensures forall k | 0 <= k < n :: Compare(rs[k], rs[Scan(rs, n, self)], self) >= 0
    ensures forall k | 0 <= k < Scan(rs, n, self) :: Compare(rs[k], rs[Scan(rs, n, self)], self) > 0
  {
    if n == 1 {
      CompareReverse(rs[0], rs[0], self);
    } else {
      var b, l := Scan(rs, n - 1, self), rs[n - 1];
      ScanIsExtremal(rs, n - 1, self);
      CompareReverse(l, l, self);
      if Compare(l, rs[b], self) < 0 {
        forall k | 0 <= k < n - 1 ensures Compare(rs[k], l, self) > 0 {
          Beyond(rs[k], rs[b], l, self);
        }
      }
    }
  }

  lemma Beyond(a: Record, b: Record, c: Record, self: Identity)
    requires Consistent(a, b) && Consistent(c, b) && Consistent(a, c)
    requires a.source != self && b.source != self && c.source != self
    requires Compare(a, b, self) >= 0 && Compare(c, b, self) < 0
    ensures Compare(a, c, self) > 0
  {
    CompareIsKeyOrder(a, b, self);
    CompareIsKeyOrder(c, b, self);
    CompareIsKeyOrder(a, c, self);
    MemCmpReverse(Key(c), Key(b));
    MemCmpTransitive(Key(a), Key(b), Key(c));
  }

  /** So the chosen record has the largest key, which is the worst clock by the comparison's own naming. */
  lemma ScanPicksLargestKey(rs: seq<Record>, self: Identity, k: nat)
    requires k < |rs| && Foreign(rs, self)
    ensures MemCmp(Key(rs[k]), Key(rs[Scan(rs, |rs|, self)])) <= 0
  {
    var b := Scan(rs, |rs|, self);
    ScanIsExtremal(rs, |rs|, self);
    assert Consistent(rs[k], rs[b]) && rs[k].source != self && rs[b].source != self;
    CompareIsKeyOrder(rs[k], rs[b], self);
  }

  /** The best master is the one no other clock precedes in key order. */
  ghost predicate IsBest(rs: seq<Record>, b: nat)
    requires b < |rs|
  {
    forall k | 0 <= k < |rs| :: MemCmp(Key(rs[b]), Key(rs[k])) <= 0
  }

  /** The scan finds the best master exactly when all the records tie. */
  lemma ScanFindsBestExactlyOnTies(rs: seq<Record>, self: Identity)
    requires rs != [] && Foreign(rs, self)
    ensures IsBest(rs, Scan(rs, |rs|, self)) <==> forall k | 0 <= k < |rs| :: Key(rs[k]) == Key(rs[0])
  {
    var b := Scan(rs, |rs|, self);
    forall k | 0 <= k < |rs| ensures MemCmp(Key(rs[b]), Key(rs[k])) <= 0 <==> Key(rs[b]) == Key(rs[k]) {
      ScanPicksLargestKey(rs, self, k);
      MemCmpReverse(Key(rs[k]), Key(rs[b]));
      MemCmpZero(Key(rs[b]), Key(rs[k]));
    }
  }

  const ONE: Identity := [1, 0, 0, 0, 0, 0, 0, 0]
  const TWO: Identity := [2, 0, 0, 0, 0, 0, 0, 0]

  /** Of two masters with priorities 1 and 2 it chooses the one with priority 2. */
  lemma ScanPicksTheWorse(self: Identity)
    ensures var rs := [Record(ONE, 1, 1, 6, 32, 0, 128, ONE, 0), Record(TWO, 1, 2, 6, 32, 0, 128, TWO, 0)];
            Scan(rs, 2, self) == 1 && Compare(rs[0], rs[1], self) == 1
  {
  }

  // ---- the recommended state ----

  datatype Recommended = Listening | Master | Passive | Slave

  /** A data set as copyD0 makes it of the local clock's own. */
  predicate IsLocal(local: Record) {
    local.steps == 0 && local.grandmaster == local.source
  }

  /** bmcStateDecision. */
  function StateDecision(listening: bool, count: nat, local: Record, chosen: Record): Recommended {
    if count == 0 && listening then Listening
    else
      var better := Compare(local, chosen, local.source) == 1;
      if local.clockClass < CLASS_LIMIT then (if better then Master else Passive)
      else (if better then Master else Slave)
  }

  /** a comes before b as the code reads the two. */
  predicate ReadsBefore(a: Record, b: Record) {
    MemCmp(Key(a), Key(b)) < 0
  }

  /** With the numbers that were sent: the standard declares both 16-bit fields unsigned. */
  function Sent(a: Record): (k: seq<int>)
    ensures |k| == 6 + 2 * IDENTITY_LENGTH
  {
    Assemble([a.priority1, a.clockClass, a.accuracy, Wire(a.variance), a.priority2], a.grandmaster,
             Wire(a.steps), a.source)
  }

  /** a precedes b in the order of the standard: a is the better clock. */
  predicate Precedes(a: Record, b: Record) {
    MemCmp(Sent(a), Sent(b)) < 0
  }

  predicate OppositeSigns(x: Int16, y: Int16) {
    (x < 0) != (y < 0)
  }

  /** The two records first differ in a 16-bit field of which the code reads one value as negative. */
  predicate Misread(a: Record, b: Record) {
    && a.priority1 == b.priority1 && a.clockClass == b.clockClass && a.accuracy == b.accuracy
    && (OppositeSigns(a.variance, b.variance)
        || (a.variance == b.variance && a.priority2 == b.priority2 && a.grandmaster == b.grandmaster
            && OppositeSigns(a.steps, b.steps)))
  }

  lemma FiveOrder(x: seq<int>, y: seq<int>)
    requires |x| == |y| == 5
    ensures MemCmp(x, y)
         == if x[0] != y[0] then -Attribute(x[0], y[0]) else if x[1] != y[1] then -Attribute(x[1], y[1])
            else if x[2] != y[2] then -Attribute(x[2], y[2]) else if x[3] != y[3] then -Attribute(x[3], y[3])
            else -Attribute(x[4], y[4])
  {
    MemCmpFirst(x, y);
    MemCmpFirst(x[1..], y[1..]);
    MemCmpFirst(x[1..][1..], y[1..][1..]);
    MemCmpFirst(x[1..][1..][1..], y[1..][1..][1..]);
    MemCmpFirst(x[1..][1..][1..][1..], y[1..][1..][1..][1..]);
  }

  /** The code's order of two records is the standard's exactly unless it misreads them. */
  lemma MisreadExactly(a: Record, b: Record)
    ensures (ReadsBefore(a, b) <==> Precedes(a, b)) <==> !Misread(a, b)
  {
    var x, y := Attributes(a), Attributes(b);
    var u := [a.priority1, a.clockClass, a.accuracy, Wire(a.variance), a.priority2];
    var v := [b.priority1, b.clockClass, b.accuracy, Wire(b.variance), b.priority2];
    AssembledOrder(x, y, a.grandmaster, b.grandmaster, a.steps, b.steps, a.source, b.source);
    AssembledOrder(u, v, a.grandmaster, b.grandmaster, Wire(a.steps), Wire(b.steps), a.source, b.source);
    FiveOrder(x, y);
    FiveOrder(u, v);
    assert x == y <==> (x[0], x[1], x[2], x[3], x[4]) == (y[0], y[1], y[2], y[3], y[4]);
    assert u == v <==> (u[0], u[1], u[2], u[3], u[4]) == (v[0], v[1], v[2], v[3], v[4]);
  }

  /** The comparison says that the local clock is better than a record exactly when it reads before it. */
  lemma LocalComparison(local: Record, r: Record)
    requires Consistent(local, r) && r.source != local.source && local.steps == 0
    ensures Compare(local, r, local.source) == 1 <==> ReadsBefore(local, r)
  {
    CompareIsKeyOrder(local, r, local.source);
    AssembledOrder(Attributes(local), Attributes(r), local.grandmaster, r.grandmaster, local.steps, r.steps,
                   local.source, r.source);
  }

  /** A clock that reads before some record reads before the chosen one. */
  lemma ChosenIsLast(rs: seq<Record>, local: Record, k: nat)
    requires k < |rs| && Foreign(rs, local.source) && ReadsBefore(local, rs[k])
    ensures ReadsBefore(local, rs[Scan(rs, |rs|, local.source)])
  {
    ScanPicksLargestKey(rs, local.source, k);
    MemCmpTransitive(Key(local), Key(rs[k]), Key(rs[Scan(rs, |rs|, local.source)]));
  }

  lemma ChosenBeatenExactly(rs: seq<Record>, local: Record)
    requires rs != [] && Foreign(rs, local.source)
    ensures ReadsBefore(local, rs[Scan(rs, |rs|, local.source)])
       <==> exists k | 0 <= k < |rs| :: ReadsBefore(local, rs[k])
  {
    forall k | 0 <= k < |rs| && ReadsBefore(local, rs[k]) ensures ReadsBefore(local, rs[Scan(rs, |rs|, local.source)]) {
      ChosenIsLast(rs, local, k);
    }
  }

  /** The port is told to be master exactly when the local clock reads before some foreign master; otherwise
      it is told to be passive or slave by its clock class alone. */
  lemma DecisionBeatsSome(rs: seq<Record>, local: Record, listening: bool)
    requires rs != [] && Foreign(rs, local.source) && IsLocal(local)
    requires forall k | 0 <= k < |rs| :: Consistent(local, rs[k])
    ensures var d := StateDecision(listening, |rs|, local, rs[Scan(rs, |rs|, local.source)]);
            && (d == Master <==> exists k | 0 <= k < |rs| :: ReadsBefore(local, rs[k]))
            && (d != Master ==> d == if local.clockClass < CLASS_LIMIT then Passive else Slave)
  {
    var b := Scan(rs, |rs|, local.source);
    LocalComparison(local, rs[b]);
    ChosenBeatenExactly(rs, local);
  }

  /** It is told to listen exactly when it does and has heard of nobody. */
  lemma ListensExactly(listening: bool, count: nat, local: Record, r: Record)
    ensures StateDecision(listening, count, local, r) == Listening <==> listening && count == 0
  {
  }

  /** The standard's rule is master exactly when the local clock is better than every foreign master. If it is, the
      code meets the rule exactly when it does not misread all of them; if it is not, exactly when it misreads those
      the local clock is better than and no other. */
  lemma DecisionMeetsStandardExactly(rs: seq<Record>, local: Record, listening: bool)
    requires rs != [] && Foreign(rs, local.source) && IsLocal(local)
    requires forall k | 0 <= k < |rs| :: Consistent(local, rs[k])
    ensures var d := StateDecision(listening, |rs|, local, rs[Scan(rs, |rs|, local.source)]);
            var all := forall k | 0 <= k < |rs| :: Precedes(local, rs[k]);
            (d == Master <==> all)
            <==> if all then exists k | 0 <= k < |rs| :: !Misread(local, rs[k])
                 else forall k | 0 <= k < |rs| :: Precedes(local, rs[k]) <==> Misread(local, rs[k])
  {
    DecisionBeatsSome(rs, local, listening);
    SomeAndAll(rs, local);
  }

  lemma SomeAndAll(rs: seq<Record>, local: Record)
    requires rs != []
    ensures var some := exists k | 0 <= k < |rs| :: ReadsBefore(local, rs[k]);
            var all := forall k | 0 <= k < |rs| :: Precedes(local, rs[k]);
            (some <==> all)
            <==> if all then exists k | 0 <= k < |rs| :: !Misread(local, rs[k])
                 else forall k | 0 <= k < |rs| :: Precedes(local, rs[k]) <==> Misread(local, rs[k])
  {
    forall k | 0 <= k < |rs| ensures ReadsBefore(local, rs[k]) <==> Precedes(local, rs[k]) != Misread(local, rs[k]) {
      MisreadExactly(local, rs[k]);
    }
  }

  /** So where nothing is misread, exactly when the local clock is better than all of them or than none. */
  lemma AllOrNone(rs: seq<Record>, local: Record, listening: bool)
    requires rs != [] && Foreign(rs, local.source) && IsLocal(local)
    requires forall k | 0 <= k < |rs| :: Consistent(local, rs[k]) && !Misread(local, rs[k])
    ensures var d := StateDecision(listening, |rs|, local, rs[Scan(rs, |rs|, local.source)]);
            var all := forall k | 0 <= k < |rs| :: Precedes(local, rs[k]);
            var none := forall k | 0 <= k < |rs| :: !Precedes(local, rs[k]);
            (d == Master <==> all) <==> (all || none)
  {
    DecisionMeetsStandardExactly(rs, local, listening);
    assert !Misread(local, rs[0]);
  }

  /** A local clock of the default variance 5000 and one foreign master alike but for the variance 0xFFFF, the largest
      there is: the local clock is better than all, and is told to be slave. */
  lemma LargestVarianceWins()
    ensures var local := Record(ONE, 0, 128, 248, 254, 5000, 128, ONE, 0);
            var r := Record(TWO, 1, 128, 248, 254, -1, 128, TWO, 0);
            && IsLocal(local) && Foreign([r], ONE) && Consistent(local, r)
            && Wire(r.variance) == 0xFFFF && Precedes(local, r)
            && StateDecision(false, 1, local, r) == Slave
  {
    var local, r := Record(ONE, 0, 128, 248, 254, 5000, 128, ONE, 0), Record(TWO, 1, 128, 248, 254, -1, 128, TWO, 0);
    assert ONE[0] != TWO[0];
    MisreadExactly(local, r);
    LocalComparison(local, r);
    AssembledOrder(Attributes(local), Attributes(r), ONE, TWO, 0, 0, ONE, TWO);
    FiveOrder(Attributes(local), Attributes(r));
    assert Attributes(local)[3] != Attributes(r)[3];
  }

  // ---- the foreign master data set ----

  /** isSamePortIdentity. */
  predicate SamePort(a: Record, b: Record): (r: bool)
    ensures r <==> (a.source, a.port) == (b.source, b.port)
  {
    MemCmpZero(a.source, b.source);
    MemCmp(a.source, b.source) == 0 && a.port == b.port
  }
}
