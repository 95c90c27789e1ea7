/** The benchmark driver: the opaque-result factory, the timed sequence of
    construct / copy / move / assign operations run once per container
    variant, and the program that runs it. */
module Benchmark {
  import opened Chrono
  import OldSchool
  import NewSchool

  const ArraysSize0: nat := 1073741824
  const ArraysSize1: nat := 536870912
  const ArraysSize2: nat := 268435456
  const ArraysSize3: nat := 134217728

  const RegularConstructor: string := "regular constructor"
  const CopyConstructorLvalue: string := "copy constructor (lvalue in input)"
  const MoveConstructorRvalue: string := "move constructor (rvalue in input)"
  const AssignmentLvalue: string := "assignment operator (lvalue in input)"
  const MoveAssignmentRvalue: string := "move assignment operator (rvalue in input)"
  const TotalComputation: string := "Total computation"
  /** How many times `process` reads the system clock. */
  const ClockReadings: nat := 12

  const CopyConstructor: string := "copy-constructor"
  const MoveConstructor: string := "move-constructor"

  // ---------------------------------------------------------------------
  // createHolder<holder>(size)
  // ---------------------------------------------------------------------

  /** `createHolder<HolderOld>(size)`: builds two containers of `size`
      elements and returns one of them, chosen by the parity of the day of the
      month. With no move constructor, returning it copies it. */
  method CreateHolderOld(size: nat, dayOfMonth: nat) returns (r: OldSchool.HolderOld)
    ensures fresh(r) && fresh(r.data)
    ensures r.Valid() && r.size == size
  {
    var h01 := new OldSchool.HolderOld(size);
    var h02 := new OldSchool.HolderOld(size);
    if dayOfMonth % 2 != 0 {
      r := new OldSchool.HolderOld.Copy(h01);
    } else {
      r := new OldSchool.HolderOld.Copy(h02);
    }
  }

  /** `createHolder<Holder>(size)`: builds two containers of `size` elements
      and returns one of them, chosen by the parity of the day of the month.
      Returning it moves its buffer into the result. */
  method CreateHolder(size: nat, dayOfMonth: nat) returns (r: NewSchool.Holder)
    ensures fresh(r) && r.data != null && fresh(r.data)
    ensures r.Valid() && !r.Vacant() && r.size == size
  {
    var h01 := new NewSchool.Holder(size);
    var h02 := new NewSchool.Holder(size);
    if dayOfMonth % 2 != 0 {
      r := new NewSchool.Holder.Move(h01);
    } else {
      r := new NewSchool.Holder.Move(h02);
    }
  }

  // ---------------------------------------------------------------------
  // The timer calls of process<holder>()
  // ---------------------------------------------------------------------

  /** The lines `process` reports: the five operations, each measured from
      its own start, then the total, measured from the very first start. */
  function ProcessReports(clock: seq<Time>): seq<Measurement>
    requires |clock| == ClockReadings
  {
    [ Measurement(RegularConstructor, clock[1], clock[2]),
      Measurement(CopyConstructorLvalue, clock[3], clock[4]),
      Measurement(MoveConstructorRvalue, clock[5], clock[6]),
      Measurement(AssignmentLvalue, clock[7], clock[8]),
      Measurement(MoveAssignmentRvalue, clock[9], clock[10]),
      Measurement(TotalComputation, clock[0], clock[11]) ]
  }

  /** The timer calls `process` makes, in order, the i-th clock reading being
      `clock[i]`. */
  function ProcessSteps(clock: seq<Time>): seq<Step>
    requires |clock| == ClockReadings
  {
    [ Start(clock[0]),
      Start(clock[1]), Stop(RegularConstructor, clock[2]),
      Start(clock[3]), Stop(CopyConstructorLvalue, clock[4]),
      Start(clock[5]), Stop(MoveConstructorRvalue, clock[6]),
      Start(clock[7]), Stop(AssignmentLvalue, clock[8]),
      Start(clock[9]), Stop(MoveAssignmentRvalue, clock[10]),
      Stop(TotalComputation, clock[11]) ]
  }

  /** Recording the calls of `process` one at a time after `t` records
      `ProcessSteps`. */
  lemma ProcessStepsTrace(t: seq<Step>, clock: seq<Time>)
    requires |clock| == ClockReadings
    ensures t + [Start(clock[0])]
      + [Start(clock[1])] + [Stop(RegularConstructor, clock[2])]
      + [Start(clock[3])] + [Stop(CopyConstructorLvalue, clock[4])]
      + [Start(clock[5])] + [Stop(MoveConstructorRvalue, clock[6])]
      + [Start(clock[7])] + [Stop(AssignmentLvalue, clock[8])]
      + [Start(clock[9])] + [Stop(MoveAssignmentRvalue, clock[10])]
      + [Stop(TotalComputation, clock[11])] == t + ProcessSteps(clock)
  {
  }

  /** The calls of `process` are the regions of the five operations, one after
      the other, inside the region of the total. */
  lemma ProcessStepsNested(clock: seq<Time>)
    requires |clock| == ClockReadings
    ensures ProcessSteps(clock) ==
              [Start(clock[0])] + Regions(ProcessReports(clock)[..5]) + [Stop(TotalComputation, clock[11])]
  {
    var ms := ProcessReports(clock)[..5];
    assert ms[..0] == [];
    assert ms[..1][..0] == [];
    assert ms[..2][..1] == ms[..1];
    assert ms[..3][..2] == ms[..2];
    assert ms[..4][..3] == ms[..3];
    assert ms[..4] == ms[..5][..4];
    assert Regions(ms[..1]) == Timed(ms[0]);
    assert Regions(ms[..2]) == Timed(ms[0]) + Timed(ms[1]);
    assert Regions(ms[..3]) == Timed(ms[0]) + Timed(ms[1]) + Timed(ms[2]);
    assert Regions(ms[..4]) == Timed(ms[0]) + Timed(ms[1]) + Timed(ms[2]) + Timed(ms[3]);
    assert ms == ms[..5];
    assert Regions(ms) == Timed(ms[0]) + Timed(ms[1]) + Timed(ms[2]) + Timed(ms[3]) + Timed(ms[4]);
  }

  /** The pushes and pops of `process` are balanced. */
  lemma ProcessStepsBalanced(clock: seq<Time>)
    requires |clock| == ClockReadings
    ensures Balanced(ProcessSteps(clock))
  {
    ProcessStepsNested(clock);
    RegionsBalanced(ProcessReports(clock)[..5]);
    BalancedWrap(clock[0], Regions(ProcessReports(clock)[..5]), TotalComputation, clock[11]);
  }

  /** On any stack, the calls of `process` report `ProcessReports` and leave the
      stack as they found it; in particular the total is measured from the
      instant of the very first push. */
  lemma ProcessStepsReplay(starts: seq<Time>, clock: seq<Time>)
    requires |clock| == ClockReadings
    ensures Replay(starts, ProcessSteps(clock)) == Ok((starts, ProcessReports(clock)))
  {
    ProcessStepsNested(clock);
    var first := [Start(clock[0])];
    var body := Regions(ProcessReports(clock)[..5]);
    var last := [Stop(TotalComputation, clock[11])];
    var inner := starts + [clock[0]];
    var none: seq<Measurement> := [];
    assert first[..0] == [];
    assert Replay(starts, first) == Ok((inner, none));
    ReplayRegions(inner, ProcessReports(clock)[..5]);
    ReplayAppend(starts, first, body);
    assert none + ProcessReports(clock)[..5] == ProcessReports(clock)[..5];
    assert Replay(starts, first + body) == Ok((inner, ProcessReports(clock)[..5]));
    assert last[..0] == [];
    assert Replay(inner, last[..0]) == Ok((inner, none));
    assert Pop(inner) == Ok((clock[0], starts));
    assert Apply((inner, none), last[0]).value.1 == [Measurement(TotalComputation, clock[0], clock[11])];
    assert Replay(inner, last) == Ok((starts, [Measurement(TotalComputation, clock[0], clock[11])]));
    ReplayAppend(starts, first + body, last);
    assert ProcessReports(clock)[..5] + [ProcessReports(clock)[5]] == ProcessReports(clock);
  }

  // ---------------------------------------------------------------------
  // process<holder>()
  // ---------------------------------------------------------------------

  /** `process<HolderOld>()`, the i-th clock reading being `clock[i]` and the
      two `createHolder` calls reading the days of month `day3` and `day5`. */
  method ProcessOld(chrono: ChronoStack, clock: seq<Time>, day3: nat, day5: nat)
    returns (h1: OldSchool.HolderOld, h2: OldSchool.HolderOld, h3: OldSchool.HolderOld,
             reports: seq<Measurement>)
    requires |clock| == ClockReadings
    modifies chrono
    ensures chrono.starts == old(chrono.starts)
    ensures chrono.trace == old(chrono.trace) + ProcessSteps(clock)
    ensures reports == ProcessReports(clock)
    ensures h1.Valid() && h2.Valid() && h3.Valid()
    ensures h1.size == ArraysSize2 && h3.size == ArraysSize2 && h2.size == ArraysSize1
    ensures h1.data != h2.data && h1.data != h3.data && h2.data != h3.data
  {
    var m: Result<Measurement>;
    var self: OldSchool.HolderOld;
    ghost var t0 := chrono.trace;
    ghost var s0 := chrono.starts;
    chrono.SetChrono0(clock[0]);

    chrono.SetChrono0(clock[1]);
    h1 := new OldSchool.HolderOld(ArraysSize2);
    m := chrono.ShowChrono(RegularConstructor, clock[2]);
    var r1 := m.value;
    assert chrono.starts == s0 + [clock[0]] && chrono.trace == t0 + [Start(clock[0])] + [Start(clock[1])] + [Stop(RegularConstructor, clock[2])];

    chrono.SetChrono0(clock[3]);
    h2 := new OldSchool.HolderOld.Copy(h1);
    m := chrono.ShowChrono(CopyConstructorLvalue, clock[4]);
    var r2 := m.value;
    assert chrono.starts == s0 + [clock[0]] && chrono.trace == t0 + [Start(clock[0])] + [Start(clock[1])] + [Stop(RegularConstructor, clock[2])] + [Start(clock[3])] + [Stop(CopyConstructorLvalue, clock[4])];

    chrono.SetChrono0(clock[5]);
    h3 := CreateHolderOld(ArraysSize2, day3);
    m := chrono.ShowChrono(MoveConstructorRvalue, clock[6]);
    var r3 := m.value;
    assert chrono.starts == s0 + [clock[0]] && chrono.trace == t0 + [Start(clock[0])] + [Start(clock[1])] + [Stop(RegularConstructor, clock[2])] + [Start(clock[3])] + [Stop(CopyConstructorLvalue, clock[4])] + [Start(clock[5])] + [Stop(MoveConstructorRvalue, clock[6])];

    chrono.SetChrono0(clock[7]);
    self := h2.CopyAssign(h3);
    m := chrono.ShowChrono(AssignmentLvalue, clock[8]);
    var r4 := m.value;
    assert chrono.starts == s0 + [clock[0]] && chrono.trace == t0 + [Start(clock[0])] + [Start(clock[1])] + [Stop(RegularConstructor, clock[2])] + [Start(clock[3])] + [Stop(CopyConstructorLvalue, clock[4])] + [Start(clock[5])] + [Stop(MoveConstructorRvalue, clock[6])] + [Start(clock[7])] + [Stop(AssignmentLvalue, clock[8])];

    chrono.SetChrono0(clock[9]);
    var temporary := CreateHolderOld(ArraysSize1, day5);
    self := h2.CopyAssign(temporary);
    m := chrono.ShowChrono(MoveAssignmentRvalue, clock[10]);
    var r5 := m.value;
    assert chrono.starts == s0 + [clock[0]] && chrono.trace == t0 + [Start(clock[0])] + [Start(clock[1])] + [Stop(RegularConstructor, clock[2])] + [Start(clock[3])] + [Stop(CopyConstructorLvalue, clock[4])] + [Start(clock[5])] + [Stop(MoveConstructorRvalue, clock[6])] + [Start(clock[7])] + [Stop(AssignmentLvalue, clock[8])] + [Start(clock[9])] + [Stop(MoveAssignmentRvalue, clock[10])];

    m := chrono.ShowChrono(TotalComputation, clock[11]);
    var r6 := m.value;
    reports := [r1, r2, r3, r4, r5, r6];
    assert chrono.trace == t0 + [Start(clock[0])]
      + [Start(clock[1])] + [Stop(RegularConstructor, clock[2])]
      + [Start(clock[3])] + [Stop(CopyConstructorLvalue, clock[4])]
      + [Start(clock[5])] + [Stop(MoveConstructorRvalue, clock[6])]
      + [Start(clock[7])] + [Stop(AssignmentLvalue, clock[8])]
      + [Start(clock[9])] + [Stop(MoveAssignmentRvalue, clock[10])]
      + [Stop(TotalComputation, clock[11])];
    ProcessStepsTrace(t0, clock);
  }

  /** `process<Holder>()`, the i-th clock reading being `clock[i]` and the two
      `createHolder` calls reading the days of month `day3` and `day5`. */
  method ProcessNew(chrono: ChronoStack, clock: seq<Time>, day3: nat, day5: nat)
    returns (h1: NewSchool.Holder, h2: NewSchool.Holder, h3: NewSchool.Holder,
             reports: seq<Measurement>)
    requires |clock| == ClockReadings
    modifies chrono
    ensures chrono.starts == old(chrono.starts)
    ensures chrono.trace == old(chrono.trace) + ProcessSteps(clock)
    ensures reports == ProcessReports(clock)
    ensures h1.Valid() && h2.Valid() && h3.Valid()
    ensures !h1.Vacant() && !h2.Vacant() && !h3.Vacant()
    ensures h1.size == ArraysSize2 && h3.size == ArraysSize2 && h2.size == ArraysSize1
    ensures h1.data != h2.data && h1.data != h3.data && h2.data != h3.data
  {
    var m: Result<Measurement>;
    var self: NewSchool.Holder;
    ghost var t0 := chrono.trace;
    ghost var s0 := chrono.starts;
    chrono.SetChrono0(clock[0]);

    chrono.SetChrono0(clock[1]);
    h1 := new NewSchool.Holder(ArraysSize2);
    m := chrono.ShowChrono(RegularConstructor, clock[2]);
    var r1 := m.value;
    assert chrono.starts == s0 + [clock[0]] && chrono.trace == t0 + [Start(clock[0])] + [Start(clock[1])] + [Stop(RegularConstructor, clock[2])];

    chrono.SetChrono0(clock[3]);
    h2 := new NewSchool.Holder.Copy(h1);
    m := chrono.ShowChrono(CopyConstructorLvalue, clock[4]);
    var r2 := m.value;
    assert chrono.starts == s0 + [clock[0]] && chrono.trace == t0 + [Start(clock[0])] + [Start(clock[1])] + [Stop(RegularConstructor, clock[2])] + [Start(clock[3])] + [Stop(CopyConstructorLvalue, clock[4])];

    chrono.SetChrono0(clock[5]);
    h3 := CreateHolder(ArraysSize2, day3);
    m := chrono.ShowChrono(MoveConstructorRvalue, clock[6]);
    var r3 := m.value;
    assert chrono.starts == s0 + [clock[0]] && chrono.trace == t0 + [Start(clock[0])] + [Start(clock[1])] + [Stop(RegularConstructor, clock[2])] + [Start(clock[3])] + [Stop(CopyConstructorLvalue, clock[4])] + [Start(clock[5])] + [Stop(MoveConstructorRvalue, clock[6])];

    chrono.SetChrono0(clock[7]);
    self := h2.CopyAssign(h3);
    m := chrono.ShowChrono(AssignmentLvalue, clock[8]);
    var r4 := m.value;
    assert chrono.starts == s0 + [clock[0]] && chrono.trace == t0 + [Start(clock[0])] + [Start(clock[1])] + [Stop(RegularConstructor, clock[2])] + [Start(clock[3])] + [Stop(CopyConstructorLvalue, clock[4])] + [Start(clock[5])] + [Stop(MoveConstructorRvalue, clock[6])] + [Start(clock[7])] + [Stop(AssignmentLvalue, clock[8])];

    chrono.SetChrono0(clock[9]);
    var temporary := CreateHolder(ArraysSize1, day5);
    self := h2.MoveAssign(temporary);
    m := chrono.ShowChrono(MoveAssignmentRvalue, clock[10]);
    var r5 := m.value;
    assert chrono.starts == s0 + [clock[0]] && chrono.trace == t0 + [Start(clock[0])] + [Start(clock[1])] + [Stop(RegularConstructor, clock[2])] + [Start(clock[3])] + [Stop(CopyConstructorLvalue, clock[4])] + [Start(clock[5])] + [Stop(MoveConstructorRvalue, clock[6])] + [Start(clock[7])] + [Stop(AssignmentLvalue, clock[8])] + [Start(clock[9])] + [Stop(MoveAssignmentRvalue, clock[10])];

    m := chrono.ShowChrono(TotalComputation, clock[11]);
    var r6 := m.value;
    reports := [r1, r2, r3, r4, r5, r6];
    assert chrono.trace == t0 + [Start(clock[0])]
      + [Start(clock[1])] + [Stop(RegularConstructor, clock[2])]
      + [Start(clock[3])] + [Stop(CopyConstructorLvalue, clock[4])]
      + [Start(clock[5])] + [Stop(MoveConstructorRvalue, clock[6])]
      + [Start(clock[7])] + [Stop(AssignmentLvalue, clock[8])]
      + [Start(clock[9])] + [Stop(MoveAssignmentRvalue, clock[10])]
      + [Stop(TotalComputation, clock[11])];
    ProcessStepsTrace(t0, clock);
  }

  // ---------------------------------------------------------------------
  // main()
  // ---------------------------------------------------------------------

  /** The lines the demonstration at the end of `main` reports. */
  function DemoReports(clock: seq<Time>): seq<Measurement>
    requires |clock| == 4
  {
    [Measurement(CopyConstructor, clock[0], clock[1]),
     Measurement(MoveConstructor, clock[2], clock[3])]
  }

  /** The timer calls of the demonstration, one region for each of its lines. */
  lemma DemoStepsTrace(t: seq<Step>, clock: seq<Time>)
    requires |clock| == 4
    ensures t + [Start(clock[0])] + [Stop(CopyConstructor, clock[1])]
              + [Start(clock[2])] + [Stop(MoveConstructor, clock[3])]
            == t + Regions(DemoReports(clock))
  {
    var ms := DemoReports(clock);
    assert ms[..1][..0] == [] && ms[..1] == [ms[0]];
    assert Regions(ms[..1]) == Timed(ms[0]);
    assert ms[..1] == ms[..|ms| - 1];
  }

  /** The demonstration at the end of `main`, the i-th clock reading being
      `clock[i]`: copying one container from a named one, then moving another
      out of a named one with `std::move`, which leaves the latter vacant. */
  method LvalueDemo(chrono: ChronoStack, clock: seq<Time>)
    returns (copied: NewSchool.Holder, copy: NewSchool.Holder,
             moved: NewSchool.Holder, adopter: NewSchool.Holder,
             reports: seq<Measurement>)
    requires |clock| == 4
    modifies chrono
    ensures chrono.starts == old(chrono.starts)
    ensures chrono.trace == old(chrono.trace) + Regions(DemoReports(clock))
    ensures reports == DemoReports(clock)
    ensures copied.Valid() && copy.Valid() && copied.size == ArraysSize0
    ensures copy.size == copied.size && copy.data != copied.data && copy.Contents() == copied.Contents()
    ensures moved.Valid() && moved.Vacant()
    ensures adopter.Valid() && !adopter.Vacant() && adopter.size == ArraysSize0
  {
    ghost var t0 := chrono.trace;
    chrono.SetChrono0(clock[0]);
    copied := new NewSchool.Holder(ArraysSize0);
    copy := new NewSchool.Holder.Copy(copied);
    var m1 := chrono.ShowChrono(CopyConstructor, clock[1]);

    chrono.SetChrono0(clock[2]);
    moved := new NewSchool.Holder(ArraysSize0);
    adopter := new NewSchool.Holder.Move(moved);
    var m2 := chrono.ShowChrono(MoveConstructor, clock[3]);
    reports := [m1.value, m2.value];
    assert chrono.trace == t0 + [Start(clock[0])] + [Stop(CopyConstructor, clock[1])]
                            + [Start(clock[2])] + [Stop(MoveConstructor, clock[3])];
    DemoStepsTrace(t0, clock);
  }

  /** The timer calls of `main`, the i-th clock reading being `clock[i]`. */
  function MainSteps(clock: seq<Time>): seq<Step>
    requires |clock| == 2 * ClockReadings + 4
  {
    ProcessSteps(clock[..ClockReadings])
      + ProcessSteps(clock[ClockReadings..2 * ClockReadings])
      + Regions(DemoReports(clock[2 * ClockReadings..]))
  }

  /** The lines `main` reports, in order. */
  function MainReports(clock: seq<Time>): seq<Measurement>
    requires |clock| == 2 * ClockReadings + 4
  {
    ProcessReports(clock[..ClockReadings])
      + ProcessReports(clock[ClockReadings..2 * ClockReadings])
      + DemoReports(clock[2 * ClockReadings..])
  }

  /** The pushes and pops of `main` are balanced. */
  lemma MainStepsBalanced(clock: seq<Time>)
    requires |clock| == 2 * ClockReadings + 4
    ensures Balanced(MainSteps(clock))
  {
    ProcessStepsBalanced(clock[..ClockReadings]);
    ProcessStepsBalanced(clock[ClockReadings..2 * ClockReadings]);
    RegionsBalanced(DemoReports(clock[2 * ClockReadings..]));
    BalancedConcat(ProcessSteps(clock[..ClockReadings]), ProcessSteps(clock[ClockReadings..2 * ClockReadings]));
    BalancedConcat(ProcessSteps(clock[..ClockReadings]) + ProcessSteps(clock[ClockReadings..2 * ClockReadings]),
                   Regions(DemoReports(clock[2 * ClockReadings..])));
  }

  /** On any stack, the calls of `main` report `MainReports` and leave the
      stack as they found it. */
  lemma MainStepsReplay(starts: seq<Time>, clock: seq<Time>)
    requires |clock| == 2 * ClockReadings + 4
    ensures Replay(starts, MainSteps(clock)) == Ok((starts, MainReports(clock)))
  {
    var a := ProcessSteps(clock[..ClockReadings]);
    var b := ProcessSteps(clock[ClockReadings..2 * ClockReadings]);
    var c := Regions(DemoReports(clock[2 * ClockReadings..]));
    ProcessStepsReplay(starts, clock[..ClockReadings]);
    ProcessStepsReplay(starts, clock[ClockReadings..2 * ClockReadings]);
    ReplayRegions(starts, DemoReports(clock[2 * ClockReadings..]));
    ReplayAppend(starts, a, b);
    ReplayAppend(starts, a + b, c);
  }

  /** `main()`: both runs of `process`, then the demonstration, reading the
      clock 28 times (`clock`) and the day of the month four times (`days`,
      once per `createHolder` call). */
  method RunBenchmark(chrono: ChronoStack, clock: seq<Time>, days: seq<nat>)
    returns (reports: seq<Measurement>)
    requires |clock| == 2 * ClockReadings + 4 && |days| == 4
    modifies chrono
    ensures chrono.starts == old(chrono.starts)
    ensures chrono.trace == old(chrono.trace) + MainSteps(clock)
    ensures reports == MainReports(clock)
  {
    var o1, o2, o3, oldReports := ProcessOld(chrono, clock[..ClockReadings], days[0], days[1]);
    var n1, n2, n3, newReports := ProcessNew(chrono, clock[ClockReadings..2 * ClockReadings], days[2], days[3]);
    var c1, c2, c3, c4, demoReports := LvalueDemo(chrono, clock[2 * ClockReadings..]);
    reports := oldReports + newReports + demoReports;
  }
}
