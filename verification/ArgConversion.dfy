/**
 Turning a caller's arguments into the driver's: each argument goes into a slot of a buffer and is
 shown to up to three checkers; an argument may be dropped, and its slot is then used again.
 */
module ArgConversion {
  import opened Wrappers

  datatype Value = Null | Val(code: int)

  datatype Arg = Plain(value: Value) | Named(name: string, value: Value)

  datatype NamedValue = NamedValue(name: string, ordinal: nat, value: Value)

  /** What a checker says; it may replace the value, and does so before it passes the argument on. */
  datatype Check = Okay(value: Value) | Skip(value: Value) | Remove | Failed(code: int)

  /** The default converter has no one to pass the argument on to. */
  datatype LastCheck = LastOkay(value: Value) | LastRemove | LastFailed(code: int)

  /** The driver's side: the optional checker and column converter, and the number of inputs or -1. */
  datatype Driver = Driver(
    checker: Option<NamedValue -> Check>,
    column: Option<(nat, Value) -> Check>,
    default: NamedValue -> LastCheck,
    isLetter: char -> bool,
    want: int)

  datatype ArgError =
    | BadName(name: string)
    | Converting(ordinal: nat, name: string, code: int)
    | WrongCount(want: int, got: nat)

  /** A name is empty or begins with a letter. */
  predicate ValidName(d: Driver, name: string) {
    name == "" || d.isLetter(name[0])
  }

  /** The column converter as a checker: not asked about columns beyond the statement's inputs. */
  function ColumnCheck(d: Driver, nv: NamedValue): Check
    requires d.column.Some? && nv.ordinal > 0
  {
    if d.want <= nv.ordinal - 1 then Okay(nv.value) else d.column.value(nv.ordinal - 1, nv.value)
  }

  function DefaultCheck(d: Driver, nv: NamedValue): (r: Check)
    ensures !r.Skip?
  {
    match d.default(nv)
    case LastOkay(v) => Okay(v)
    case LastRemove => Remove
    case LastFailed(c) => Failed(c)
  }

  /** The verdict on one argument and the number of checkers asked: routes A to D of the source. */
  function CheckArg(d: Driver, nv: NamedValue): (r: (Check, nat))
    requires nv.ordinal > 0
    ensures !r.0.Skip?
    ensures 1 <= r.1 <= 3
    ensures d.checker.None? || d.column.None? ==> r.1 <= 2
    ensures d.checker.None? && d.column.None? ==> r.1 == 1
  {
    if d.checker.Some? then
      var first := d.checker.value(nv);
      if !first.Skip? then (first, 1)
      else
        var passed := nv.(value := first.value);
        if d.column.None? then (DefaultCheck(d, passed), 2)
        else
          var second := ColumnCheck(d, passed);
          if !second.Skip? then (second, 2)
          else (DefaultCheck(d, passed.(value := second.value)), 3)
    else if d.column.Some? then
      var first := ColumnCheck(d, nv);
      if !first.Skip? then (first, 1) else (DefaultCheck(d, nv.(value := first.value)), 2)
    else (DefaultCheck(d, nv), 1)
  }

  /** What has been made of a list of arguments: the values kept, each verdict, the next slot's name. */
  datatype Progress = Progress(out: seq<NamedValue>, kept: seq<bool>, slotName: string)

  function Slot(p: Progress, arg: Arg): NamedValue {
    NamedValue(if arg.Named? then arg.name else p.slotName, |p.out| + 1, arg.value)
  }

  function Take(d: Driver, p: Progress, arg: Arg): Result<Progress, ArgError> {
    if arg.Named? && !ValidName(d, arg.name) then Fail(BadName(arg.name))
    else
      var nv := Slot(p, arg);
      match CheckArg(d, nv).0
      case Okay(v) => Ok(Progress(p.out + [nv.(value := v)], p.kept + [true], ""))
      case Failed(c) => Fail(Converting(nv.ordinal, nv.name, c))
      case _ => Ok(Progress(p.out, p.kept + [false], nv.name))
  }

  function Convert(d: Driver, args: seq<Arg>): (r: Result<Progress, ArgError>)
    ensures r.Ok? ==> |r.value.kept| == |args| && |r.value.out| <= |args|
  {
    if args == [] then Ok(Progress([], [], ""))
    else
      match Convert(d, args[..|args| - 1])
      case Fail(e) => Fail(e)
      case Ok(p) => Take(d, p, args[|args| - 1])
  }

  /** The whole of driverArgsConnLocked. */
  function DriverArgs(d: Driver, args: seq<Arg>): Result<seq<NamedValue>, ArgError> {
    match Convert(d, args)
    case Fail(e) => Fail(e)
    case Ok(p) =>
      if d.want != -1 && |p.out| != d.want then Fail(WrongCount(d.want, |p.out|)) else Ok(p.out)
  }

  // --- the loops -------------------------------------------------------------------------

  datatype Which = UseChecker | UseColumn | UseDefault

  /** The checking sequence of one slot, with the jump back as a loop. */
  method CheckSlot(d: Driver, buf: array<NamedValue>, n: nat) returns (verdict: Check, ghost tries: nat)
    requires n < buf.Length && buf[n].ordinal > 0
    modifies buf
    ensures (verdict, tries) == CheckArg(d, old(buf[n]))
    ensures CheckersSay(d, old(buf[n]), verdict)
    ensures buf[n] == old(buf[n]).(value := buf[n].value)
    ensures verdict.Okay? ==> buf[n].value == verdict.value
    ensures forall k :: 0 <= k < buf.Length && k != n ==> buf[k] == old(buf[k])
  {
    var checker := UseDefault;
    var nextCC := false;
    if d.checker.Some? {
      nextCC := d.column.Some?;
      checker := UseChecker;
    } else if d.column.Some? {
      checker := UseColumn;
    }
    tries := 0;
    ghost var start := buf[n];
    CheckArgIff(d, start, CheckArg(d, start).0);
    verdict := Skip(buf[n].value);
    while verdict.Skip?
      invariant buf[n] == start.(value := buf[n].value)
      invariant forall k :: 0 <= k < buf.Length && k != n ==> buf[k] == old(buf[k])
      invariant checker == UseChecker ==> d.checker.Some? && nextCC == d.column.Some?
      invariant checker == UseColumn ==> d.column.Some? && !nextCC
      invariant checker == UseDefault ==> !nextCC
      invariant verdict.Skip? ==> tries + CheckFrom(d, checker, buf[n]).1 == CheckArg(d, start).1
                                  && CheckFrom(d, checker, buf[n]).0 == CheckArg(d, start).0
      invariant !verdict.Skip? ==> (verdict, tries) == CheckArg(d, start)
      invariant verdict.Okay? ==> buf[n].value == verdict.value
      decreases if !verdict.Skip? then 0
                else match checker case UseChecker => 3 case UseColumn => 2 case UseDefault => 1
    {
      tries := tries + 1;
      match checker {
        case UseChecker => verdict := d.checker.value(buf[n]);
        case UseColumn => verdict := ColumnCheck(d, buf[n]);
        case UseDefault => verdict := DefaultCheck(d, buf[n]);
      }
      if verdict.Okay? || verdict.Skip? {
        buf[n] := buf[n].(value := verdict.value);
      }
      if verdict.Skip? {
        if nextCC {
          nextCC := false;
          checker := UseColumn;
        } else {
          checker := UseDefault;
        }
      }
    }
  }

  /** The rest of the checking sequence, from a given checker on. */
  ghost function CheckFrom(d: Driver, checker: Which, nv: NamedValue): (Check, nat)
    requires nv.ordinal > 0
    requires checker == UseChecker ==> d.checker.Some?
    requires checker == UseColumn ==> d.column.Some?
  {
    match checker
    case UseChecker => CheckArg(d, nv)
    case UseColumn => CheckArg(d.(checker := None), nv)
    case UseDefault => (DefaultCheck(d, nv), 1)
  }

  /** The buffer while the loop runs: kept values, the slot about to be used, untouched slots. */
  ghost predicate Filled(buf: array<NamedValue>, p: Progress, n: nat, len: nat)
    reads buf
  {
    && n == |p.out| && n <= len <= buf.Length
    && buf[..n] == p.out
    && (n < len ==> buf[n].name == p.slotName)
    && (forall k :: n < k < len ==> buf[k].name == "")
  }

  /** driverArgsConnLocked: the buffer starts with a slot for each argument and shrinks. */
  method DriverArgsConnLocked(d: Driver, args: seq<Arg>) returns (r: Result<seq<NamedValue>, ArgError>)
    ensures r == DriverArgs(d, args)
  {
    hide Take, CheckArg, ValidName;
    var buf := new NamedValue[|args|](i => NamedValue("", 0, Null));
    var len := buf.Length;
    var n := 0;
    ghost var p := Progress([], [], "");
    for i := 0 to |args|
      invariant Convert(d, args[..i]) == Ok(p)
      invariant len - n == |args| - i
      invariant Filled(buf, p, n, len)
    {
      assert args[..i + 1][..i] == args[..i];
      assert Convert(d, args[..i + 1]) == Take(d, p, args[i]);
      var err, kept := FillSlot(d, buf, n, args[i], p);
      if err.Some? {
        ConvertFails(d, args, i + 1, err.value);
        return Fail(err.value);
      }
      p := Take(d, p, args[i]).value;
      if kept {
        n := n + 1;
      } else {
        len := len - 1;
      }
    }
    assert args[..|args|] == args;
    if d.want != -1 && len != d.want {
      return Fail(WrongCount(d.want, len));
    }
    r := Ok(buf[..len]);
  }

  /** One argument into slot n. */
  method FillSlot(d: Driver, buf: array<NamedValue>, n: nat, arg: Arg, ghost p: Progress)
    returns (err: Option<ArgError>, kept: bool)
    requires n < buf.Length && n == |p.out| && buf[n].name == p.slotName
    modifies buf
    ensures err.Some? ==> Take(d, p, arg) == Fail(err.value)
    ensures err.None? ==>
      && Take(d, p, arg).Ok?
      && var t := Take(d, p, arg).value;
         (if kept then t.out == p.out + [buf[n]] && t.slotName == "" else t.out == p.out && t.slotName == buf[n].name)
    ensures forall k :: 0 <= k < buf.Length && k != n ==> buf[k] == old(buf[k])
  {
    kept := false;
    if arg.Named? {
      if !ValidName(d, arg.name) {
        return Some(BadName(arg.name)), false;
      }
      buf[n] := buf[n].(name := arg.name);
    }
    buf[n] := buf[n].(ordinal := n + 1, value := arg.value);
    assert buf[n] == Slot(p, arg);
    var verdict, tries := CheckSlot(d, buf, n);
    match verdict
    case Okay(v) => return None, true;
    case Failed(c) => return Some(Converting(buf[n].ordinal, buf[n].name, c)), false;
    case _ => return None, false;
  }

  /** An error ends the conversion whatever follows. */
  lemma {:induction false} ConvertFails(d: Driver, args: seq<Arg>, i: nat, e: ArgError)
    requires i <= |args| && Convert(d, args[..i]) == Fail(e)
    ensures Convert(d, args) == Fail(e)
    decreases |args| - i
  {
    if i == |args| {
      assert args[..i] == args;
    } else {
      assert args[..i + 1][..i] == args[..i];
      ConvertFails(d, args, i + 1, e);
    }
  }

  // --- what it means ---------------------------------------------------------------------

  /** The positions of the arguments that were kept, in order. */
  function KeptAt(kept: seq<bool>): (r: seq<nat>)
    ensures forall k :: 0 <= k < |r| ==> r[k] < |kept| && kept[r[k]]
    ensures forall j, k :: 0 <= j < k < |r| ==> r[j] < r[k]
  {
    if kept == [] then []
    else KeptAt(kept[..|kept| - 1]) + (if kept[|kept| - 1] then [|kept| - 1] else [])
  }

  /** No kept position is missing. */
  lemma {:induction false} KeptAtAll(kept: seq<bool>, i: nat)
    requires i < |kept| && kept[i]
    ensures i in KeptAt(kept)
  {
    if i < |kept| - 1 {
      KeptAtAll(kept[..|kept| - 1], i);
    }
  }

  /** The default converter's word on an argument, which is the last. */
  ghost predicate DefaultSays(d: Driver, nv: NamedValue, verdict: Check) {
    match d.default(nv)
    case LastOkay(v) => verdict == Okay(v)
    case LastRemove => verdict == Remove
    case LastFailed(c) => verdict == Failed(c)
  }

  /**
   The column converter, if there is one, is asked about the columns the statement has, counted from
   zero; what is beyond them stands as it is. What it passes on, the default converter decides.
   */
  ghost predicate ColumnSays(d: Driver, nv: NamedValue, verdict: Check) {
    if d.column.None? then DefaultSays(d, nv, verdict)
    else if nv.ordinal < 1 || d.want <= nv.ordinal - 1 then verdict == Okay(nv.value)
    else
      match d.column.value(nv.ordinal - 1, nv.value)
      case Skip(w) => DefaultSays(d, nv.(value := w), verdict)
      case said => verdict == said
  }

  /** The driver's own checker, if there is one, comes first; the value it passes on goes further. */
  ghost predicate CheckersSay(d: Driver, nv: NamedValue, verdict: Check) {
    if d.checker.None? then ColumnSays(d, nv, verdict)
    else
      match d.checker.value(nv)
      case Skip(v) => ColumnSays(d, nv.(value := v), verdict)
      case said => verdict == said
  }

  /** The verdict on an argument is what the checkers say, asked in this order. */
  lemma CheckArgIff(d: Driver, nv: NamedValue, verdict: Check)
    requires nv.ordinal > 0
    ensures CheckArg(d, nv).0 == verdict <==> CheckersSay(d, nv, verdict)
  {
  }

  /** The name left in the slot that argument i gets: that of the last argument dropped from it. */
  function LeftName(args: seq<Arg>, kept: seq<bool>, i: nat): string
    requires i <= |args| && i <= |kept|
  {
    if i == 0 || kept[i - 1] then ""
    else if args[i - 1].Named? then args[i - 1].name
    else LeftName(args, kept, i - 1)
  }

  /** What the checkers are shown for argument i, once it is known which ones before it were kept. */
  function Shown(args: seq<Arg>, kept: seq<bool>, i: nat): NamedValue
    requires i < |args| && i <= |kept|
  {
    NamedValue(if args[i].Named? then args[i].name else LeftName(args, kept, i),
               |KeptAt(kept[..i])| + 1, args[i].value)
  }

  predicate BadlyNamed(d: Driver, arg: Arg) {
    arg.Named? && arg.name != "" && !d.isLetter(arg.name[0])
  }

  /**
   The result is the kept arguments in their order, the k-th with ordinal k + 1, the name of its slot
   and the value its checkers made of it; an argument is left out exactly if they removed it; none is
   badly named; and with a known number of inputs success means exactly that many.
   */
  lemma ResultIsKept(d: Driver, args: seq<Arg>)
    requires DriverArgs(d, args).Ok?
    ensures var kept, r := Convert(d, args).value.kept, DriverArgs(d, args).value;
      && |r| == |KeptAt(kept)| && |kept| == |args|
      && (forall k :: 0 <= k < |r| ==>
            var nv := Shown(args, kept, KeptAt(kept)[k]);
            && r[k].ordinal == nv.ordinal == k + 1 && r[k].name == nv.name
            && CheckersSay(d, nv, Okay(r[k].value)))
      && (forall i :: 0 <= i < |args| && !kept[i] ==> CheckersSay(d, Shown(args, kept, i), Remove))
      && (forall i :: 0 <= i < |args| ==> !BadlyNamed(d, args[i]))
      && (d.want != -1 ==> |r| == d.want)
  {
    hide Convert, CheckersSay, BadlyNamed, LeftName;
    var p := Convert(d, args).value;
    OutCount(d, args);
    forall i | 0 <= i < |args|
      ensures !BadlyNamed(d, args[i]) && (!p.kept[i] ==> CheckersSay(d, Shown(args, p.kept, i), Remove))
    {
      VerdictAt(d, args, i);
    }
    forall k | 0 <= k < |p.out|
      ensures var nv := Shown(args, p.kept, KeptAt(p.kept)[k]);
        p.out[k].ordinal == nv.ordinal == k + 1 && p.out[k].name == nv.name && CheckersSay(d, nv, Okay(p.out[k].value))
    {
      KeptBefore(p.kept, k);
      VerdictAt(d, args, KeptAt(p.kept)[k]);
    }
  }

  /** Without a checker and a column converter: the default converter makes the values, and drops. */
  lemma DefaultRoute(d: Driver, args: seq<Arg>)
    requires d.checker == None && d.column == None && DriverArgs(d, args).Ok?
    ensures var kept, r := Convert(d, args).value.kept, DriverArgs(d, args).value;
      && |r| == |KeptAt(kept)| && |kept| == |args|
      && (forall k :: 0 <= k < |r| ==> d.default(Shown(args, kept, KeptAt(kept)[k])) == LastOkay(r[k].value))
      && (forall i :: 0 <= i < |args| && !kept[i] ==> d.default(Shown(args, kept, i)) == LastRemove)
  {
    hide Shown, Convert;
    ResultIsKept(d, args);
  }

  lemma {:induction false} KeptBefore(kept: seq<bool>, k: nat)
    requires k < |KeptAt(kept)|
    ensures |KeptAt(kept[..KeptAt(kept)[k]])| == k
  {
    var n := |kept| - 1;
    if KeptAt(kept)[k] < n {
      KeptBefore(kept[..n], k);
      assert kept[..n][..KeptAt(kept)[k]] == kept[..KeptAt(kept)[k]];
    }
  }

  /** What the first arguments have led to does not depend on the later ones. */
  lemma {:induction false} PrefixStays(d: Driver, args: seq<Arg>, i: nat)
    requires i <= |args| && Convert(d, args).Ok?
    ensures Convert(d, args[..i]).Ok?
    ensures var p, q := Convert(d, args).value, Convert(d, args[..i]).value;
      p.kept[..i] == q.kept && |q.out| <= |p.out| && p.out[..|q.out|] == q.out
    decreases |args|
  {
    hide Take;
    if i == |args| {
      assert args[..i] == args;
    } else {
      var n := |args| - 1;
      TakeShape(d, Convert(d, args[..n]).value, args[n]);
      PrefixStays(d, args[..n], i);
      assert args[..n][..i] == args[..i];
      var p, q, r := Convert(d, args).value, Convert(d, args[..n]).value, Convert(d, args[..i]).value;
      assert p.kept[..i] == p.kept[..n][..i];
      assert p.out[..|r.out|] == p.out[..|q.out|][..|r.out|];
    }
  }

  lemma {:induction false} OutCount(d: Driver, args: seq<Arg>)
    requires Convert(d, args).Ok?
    ensures |Convert(d, args).value.out| == |KeptAt(Convert(d, args).value.kept)|
  {
    if args != [] {
      hide Take, KeptAt;
      var n := |args| - 1;
      OutCount(d, args[..n]);
      TakeShape(d, Convert(d, args[..n]).value, args[n]);
      KeptAtGrows(Convert(d, args[..n]).value.kept, Convert(d, args).value.kept);
    }
  }

  lemma {:induction false} LeftNamePrefix(args: seq<Arg>, kept: seq<bool>, n: nat, i: nat)
    requires i <= n && n <= |args| && n <= |kept|
    ensures LeftName(args[..n], kept[..n], i) == LeftName(args, kept, i)
  {
    if i > 0 {
      LeftNamePrefix(args, kept, n, i - 1);
    }
  }

  lemma {:induction false} SlotNameIsLeft(d: Driver, args: seq<Arg>)
    requires Convert(d, args).Ok?
    ensures Convert(d, args).value.slotName == LeftName(args, Convert(d, args).value.kept, |args|)
  {
    if args != [] {
      hide CheckArg;
      var n := |args| - 1;
      var q, p := Convert(d, args[..n]).value, Convert(d, args).value;
      SlotNameIsLeft(d, args[..n]);
      assert p.kept[..n] == q.kept;
      LeftNamePrefix(args, p.kept, n, n);
    }
  }

  /** The slot that argument i gets is what the arguments before it have led to. */
  lemma ShownIsSlot(d: Driver, args: seq<Arg>, kept: seq<bool>, i: nat)
    requires i < |args| && i <= |kept| && Convert(d, args[..i]).Ok?
    requires kept[..i] == Convert(d, args[..i]).value.kept
    ensures Slot(Convert(d, args[..i]).value, args[i]) == Shown(args, kept, i)
  {
    hide Convert, KeptAt;
    OutCount(d, args[..i]);
    SlotNameIsLeft(d, args[..i]);
    LeftNamePrefix(args, kept, i, i);
  }

  /** Each verdict is that of the checkers on what they were shown. */
  lemma VerdictAt(d: Driver, args: seq<Arg>, i: nat)
    requires i < |args| && Convert(d, args).Ok?
    ensures var p := Convert(d, args).value;
      var nv, n := Shown(args, p.kept, i), |KeptAt(p.kept[..i])|;
      && !BadlyNamed(d, args[i])
      && (p.kept[i] ==> n < |p.out| && p.out[n] == nv.(value := p.out[n].value)
                        && CheckersSay(d, nv, Okay(p.out[n].value)))
      && (!p.kept[i] ==> CheckersSay(d, nv, Remove))
  {
    hide Take, CheckersSay, KeptAt, Shown, BadlyNamed;
    var p := Convert(d, args).value;
    PrefixStays(d, args, i);
    PrefixStays(d, args, i + 1);
    assert args[..i + 1][..i] == args[..i];
    var q, q1 := Convert(d, args[..i]).value, Convert(d, args[..i + 1]).value;
    OutCount(d, args[..i]);
    ShownIsSlot(d, args, p.kept, i);
    TakeSays(d, q, args[i]);
    assert p.kept[i] == p.kept[..i + 1][i] == q1.kept[i];
    if p.kept[i] {
      assert p.out[|q.out|] == p.out[..|q1.out|][|q.out|] == q1.out[|q.out|];
    }
  }

  lemma TakeSays(d: Driver, p: Progress, arg: Arg)
    requires Take(d, p, arg).Ok?
    ensures var t, nv := Take(d, p, arg).value, Slot(p, arg);
      && !BadlyNamed(d, arg) && |t.kept| == |p.kept| + 1
      && (t.kept[|p.kept|] ==> |t.out| == |p.out| + 1 && t.out[|p.out|] == nv.(value := t.out[|p.out|].value)
                               && CheckersSay(d, nv, Okay(t.out[|p.out|].value)))
      && (!t.kept[|p.kept|] ==> CheckersSay(d, nv, Remove))
  {
    hide CheckArg, CheckersSay;
    CheckArgIff(d, Slot(p, arg), CheckArg(d, Slot(p, arg)).0);
  }

  // --- when it fails -------------------------------------------------------------------------

  /** Argument i, the first that is not converted, stops the conversion with error e. */
  ghost predicate StopsAt(d: Driver, args: seq<Arg>, i: nat, e: ArgError) {
    && i < |args| && Convert(d, args[..i]).Ok?
    && match e
       case BadName(name) => BadlyNamed(d, args[i]) && args[i].name == name
       case Converting(ordinal, name, code) =>
         && !BadlyNamed(d, args[i])
         && var nv := Shown(args, Convert(d, args[..i]).value.kept, i);
            nv.ordinal == ordinal && nv.name == name && CheckersSay(d, nv, Failed(code))
       case WrongCount(_, _) => false
  }

  /** Everything is converted, and it is not as much as the statement takes. */
  ghost predicate Miscounted(d: Driver, args: seq<Arg>, e: ArgError) {
    && Convert(d, args).Ok? && d.want != -1
    && var got := |KeptAt(Convert(d, args).value.kept)|;
       got != d.want && e == WrongCount(d.want, got)
  }

  lemma TakeFails(d: Driver, args: seq<Arg>, i: nat, e: ArgError)
    requires i < |args| && Convert(d, args[..i]).Ok?
    ensures Convert(d, args[..i + 1]) == Fail(e) <==> StopsAt(d, args, i, e)
  {
    hide CheckArg, CheckersSay, Shown, KeptAt;
    assert args[..i + 1][..i] == args[..i];
    var q := Convert(d, args[..i]).value;
    assert q.kept[..i] == q.kept;
    ShownIsSlot(d, args, q.kept, i);
    if e.Converting? {
      CheckArgIff(d, Slot(q, args[i]), Failed(e.code));
    }
  }

  /** The first argument that stops it. */
  lemma {:induction false} FirstStop(d: Driver, args: seq<Arg>, e: ArgError) returns (i: nat)
    requires Convert(d, args) == Fail(e)
    ensures StopsAt(d, args, i, e)
    decreases |args|
  {
    hide CheckArg, Take, CheckersSay, Shown;
    var n := |args| - 1;
    if Convert(d, args[..n]).Ok? {
      i := n;
      assert args[..n + 1] == args;
      TakeFails(d, args, n, e);
    } else {
      i := FirstStop(d, args[..n], e);
      assert args[..n][..i] == args[..i];
      StopMoves(d, args, n, i, e);
    }
  }

  /** What stops the conversion does not depend on what comes behind it. */
  lemma StopMoves(d: Driver, args: seq<Arg>, n: nat, i: nat, e: ArgError)
    requires n <= |args| && StopsAt(d, args[..n], i, e)
    ensures StopsAt(d, args, i, e)
  {
    hide CheckersSay, Convert, KeptAt;
    assert args[..n][..i] == args[..i];
    var kept := Convert(d, args[..i]).value.kept;
    assert kept[..i] == kept;
    LeftNamePrefix(args, kept, i, i);
    LeftNamePrefix(args[..n], kept, i, i);
  }

  /**
   The call fails with an error if and only if a bad name or a failed check stops it at the first
   argument that is not converted, or all are converted and their number is wrong.
   */
  lemma FailsIff(d: Driver, args: seq<Arg>, e: ArgError)
    ensures DriverArgs(d, args) == Fail(e) <==> (exists i :: StopsAt(d, args, i, e)) || Miscounted(d, args, e)
  {
    hide StopsAt, Take, CheckArg;
    if Convert(d, args) == Fail(e) {
      var i := FirstStop(d, args, e);
    }
    if i :| StopsAt(d, args, i, e) {
      StopFails(d, args, i, e);
    }
    if Convert(d, args).Ok? {
      OutCount(d, args);
    }
  }

  lemma StopFails(d: Driver, args: seq<Arg>, i: nat, e: ArgError)
    requires StopsAt(d, args, i, e)
    ensures Convert(d, args) == Fail(e)
  {
    hide CheckersSay, Shown;
    TakeFails(d, args, i, e);
    ConvertFails(d, args, i + 1, e);
  }

  /**
   An argument leaves its name behind: it was named and dropped, and everything between it and
   argument i, which is not named itself, was dropped without a name.
   */
  ghost predicate LeavesName(args: seq<Arg>, kept: seq<bool>, j: nat, i: nat)
    requires |kept| == |args| && i <= |args|
  {
    && j < i && args[j].Named? && args[j].name != "" && !kept[j]
    && (forall k :: j < k < i ==> args[k].Plain? && !kept[k])
  }

  ghost predicate NameLeft(args: seq<Arg>, kept: seq<bool>, i: nat)
    requires |kept| == |args| && i <= |args|
  {
    exists j :: LeavesName(args, kept, j, i)
  }

  /** How a name stays in the slot over one argument. */
  lemma NameLeftStep(args: seq<Arg>, kept: seq<bool>, n: nat)
    requires |kept| == |args| == n + 1
    ensures NameLeft(args, kept, n + 1) <==>
              (!kept[n] && (if args[n].Named? then args[n].name != "" else NameLeft(args[..n], kept[..n], n)))
  {
    if NameLeft(args, kept, n + 1) {
      var j: nat :| LeavesName(args, kept, j, n + 1);
      if j < n {
        assert args[n].Plain? && !kept[n];
        assert LeavesName(args[..n], kept[..n], j, n);
      }
    }
    if !kept[n] && args[n].Named? && args[n].name != "" {
      assert LeavesName(args, kept, n, n + 1);
    }
    if !kept[n] && args[n].Plain? && NameLeft(args[..n], kept[..n], n) {
      var j: nat :| LeavesName(args[..n], kept[..n], j, n);
      assert LeavesName(args, kept, j, n + 1);
    }
  }

  /** The slot has a name exactly if somebody left it. */
  lemma {:induction false} SlotNameLeft(d: Driver, args: seq<Arg>)
    requires Convert(d, args).Ok?
    ensures var p := Convert(d, args).value; p.slotName != "" <==> NameLeft(args, p.kept, |args|)
  {
    hide NameLeft, CheckArg;
    if args == [] {
      assert !NameLeft(args, [], 0) by {
        NothingLeft();
      }
    } else {
      var n := |args| - 1;
      SlotNameLeft(d, args[..n]);
      var q, p := Convert(d, args[..n]).value, Convert(d, args).value;
      assert p.kept[..n] == q.kept;
      NameLeftStep(args, p.kept, n);
    }
  }

  lemma NothingLeft()
    ensures !NameLeft([], [], 0)
  {
  }

  predicate OwnName(arg: Arg, nv: NamedValue) {
    nv.name == if arg.Named? then arg.name else ""
  }

  /** A plain argument is kept in a slot somebody left a name in. */
  ghost predicate WrongNameAt(args: seq<Arg>, kept: seq<bool>, i: nat)
    requires |kept| == |args|
  {
    i < |args| && kept[i] && args[i].Plain? && NameLeft(args, kept, i)
  }

  ghost predicate AllOwn(args: seq<Arg>, p: Progress)
    requires |p.kept| == |args| && |p.out| == |KeptAt(p.kept)|
  {
    forall k :: 0 <= k < |p.out| ==> OwnName(args[KeptAt(p.kept)[k]], p.out[k])
  }

  ghost predicate NoneWrong(args: seq<Arg>, kept: seq<bool>)
    requires |kept| == |args|
  {
    forall i :: 0 <= i < |args| ==> !WrongNameAt(args, kept, i)
  }

  /**
   Names: every argument in the result carries its own name, unless a plain argument was kept in a
   slot whose last name belongs to a dropped one.
   */
  lemma {:induction false} NamesAreOwnIff(d: Driver, args: seq<Arg>)
    requires Convert(d, args).Ok?
    ensures var p := Convert(d, args).value;
      && |p.out| == |KeptAt(p.kept)|
      && (AllOwn(args, p) <==> NoneWrong(args, p.kept))
  {
    if args != [] {
      hide NameLeft, WrongNameAt, OwnName, CheckArg, AllOwn, NoneWrong, Take;
      var n := |args| - 1;
      NamesAreOwnIff(d, args[..n]);
      var q, p := Convert(d, args[..n]).value, Convert(d, args).value;
      TakeShape(d, q, args[n]);
      OwnStep(args, q, p);
      WrongStep(args, p.kept);
      LastName(d, args);
    } else {
      assert NoneWrong(args, []);
    }
  }

  lemma TakeShape(d: Driver, p: Progress, arg: Arg)
    requires Take(d, p, arg).Ok?
    ensures var t := Take(d, p, arg).value;
      && |t.kept| == |p.kept| + 1 && t.kept[..|p.kept|] == p.kept
      && |t.out| == |p.out| + (if t.kept[|p.kept|] then 1 else 0) && t.out[..|p.out|] == p.out
  {
  }

  lemma OwnStep(args: seq<Arg>, q: Progress, p: Progress)
    requires |p.kept| == |args| == |q.kept| + 1 && p.kept[..|q.kept|] == q.kept
    requires |q.out| == |KeptAt(q.kept)| && |p.out| == |q.out| + (if p.kept[|q.kept|] then 1 else 0)
    requires p.out[..|q.out|] == q.out
    ensures var n := |args| - 1;
      && |p.out| == |KeptAt(p.kept)|
      && (AllOwn(args, p) <==> AllOwn(args[..n], q) && (p.kept[n] ==> OwnName(args[n], p.out[|p.out| - 1])))
  {
    hide OwnName, KeptAt;
    KeptAtGrows(q.kept, p.kept);
    assert forall k :: 0 <= k < |q.out| ==> p.out[k] == p.out[..|q.out|][k];
  }

  lemma KeptAtGrows(before: seq<bool>, kept: seq<bool>)
    requires |kept| == |before| + 1 && kept[..|before|] == before
    ensures |KeptAt(kept)| == |KeptAt(before)| + (if kept[|before|] then 1 else 0)
    ensures forall k :: 0 <= k < |KeptAt(before)| ==> KeptAt(kept)[k] == KeptAt(before)[k]
    ensures kept[|before|] ==> KeptAt(kept)[|KeptAt(before)|] == |before|
  {
  }

  lemma WrongStep(args: seq<Arg>, kept: seq<bool>)
    requires |kept| == |args| && args != []
    ensures var n := |args| - 1;
      NoneWrong(args, kept) <==> NoneWrong(args[..n], kept[..n]) && !WrongNameAt(args, kept, n)
  {
    KeepsPrefix(args, kept, |args| - 1);
    hide WrongNameAt;
  }

  /** The last argument, if kept, has its own name unless the slot had one. */
  lemma LastName(d: Driver, args: seq<Arg>)
    requires args != [] && Convert(d, args).Ok?
    ensures var p, n := Convert(d, args).value, |args| - 1;
      && (p.kept[n] ==> |p.out| > 0 && (OwnName(args[n], p.out[|p.out| - 1]) <==> !WrongNameAt(args, p.kept, n)))
      && (!p.kept[n] ==> !WrongNameAt(args, p.kept, n))
  {
    hide NameLeft, CheckArg;
    var n := |args| - 1;
    var q, p := Convert(d, args[..n]).value, Convert(d, args).value;
    assert p.kept[..n] == q.kept;
    SlotNameLeft(d, args[..n]);
    KeepsPrefix(args, p.kept, n);
  }

  /** What an argument is left with depends on the arguments before it only. */
  lemma KeepsPrefix(args: seq<Arg>, kept: seq<bool>, n: nat)
    requires |kept| == |args| && n < |args|
    ensures NameLeft(args, kept, n) <==> NameLeft(args[..n], kept[..n], n)
    ensures forall i :: 0 <= i < n ==> (WrongNameAt(args, kept, i) <==> WrongNameAt(args[..n], kept[..n], i))
  {
    forall i | 0 <= i <= n ensures NameLeft(args, kept, i) <==> NameLeft(args[..n], kept[..n], i) {
      assert forall j: nat :: LeavesName(args, kept, j, i) <==> LeavesName(args[..n], kept[..n], j, i);
    }
  }

  /** A driver that drops nulls and takes everything else. */
  function DropsNulls(want: int): Driver {
    Driver(Some((nv: NamedValue) => if nv.value == Null then Remove else Okay(nv.value)), None,
           (nv: NamedValue) => LastOkay(nv.value), (c: char) => true, want)
  }

  lemma NullDropped(a: char)
    ensures Take(DropsNulls(1), Progress([], [], ""), Named([a], Null)) == Ok(Progress([], [false], [a]))
  {
    assert [] + [false] == [false];
  }

  lemma ValueTaken(a: char)
    ensures Take(DropsNulls(1), Progress([], [false], [a]), Plain(Val(1)))
              == Ok(Progress([NamedValue([a], 1, Val(1))], [false, true], ""))
  {
    assert [false] + [true] == [false, true];
    assert [] + [NamedValue([a], 1, Val(1))] == [NamedValue([a], 1, Val(1))];
  }

  /** It does happen: the first argument is dropped, the second goes out under its name. */
  lemma StaleName(a: char) returns (d: Driver, args: seq<Arg>)
    ensures DriverArgs(d, args).Ok? && args == [Named([a], Null), Plain(Val(1))]
    ensures DriverArgs(d, args).value == [NamedValue([a], 1, Val(1))]
  {
    hide Take, Convert;
    d := DropsNulls(1);
    args := [Named([a], Null), Plain(Val(1))];
    NullDropped(a);
    ValueTaken(a);
    NoArgs(d);
    ConvertStep(d, [], args[0]);
    assert [] + [args[0]] == [args[0]] && [args[0]] + [args[1]] == args;
    ConvertStep(d, [args[0]], args[1]);
  }

  lemma NoArgs(d: Driver)
    ensures Convert(d, []) == Ok(Progress([], [], ""))
  {
  }

  lemma ConvertStep(d: Driver, args: seq<Arg>, arg: Arg)
    requires Convert(d, args).Ok?
    ensures Convert(d, args + [arg]) == Take(d, Convert(d, args).value, arg)
  {
    assert (args + [arg])[..|args|] == args;
  }
}
