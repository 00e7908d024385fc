/**
 The root-cause narrative: two fixed decision trees over the seven health flags.
 The dependency flow (execution chain) runs first and the value chain second; each
 emits an ordered list of severity-tagged messages.

 Each tree is written twice: as nested conditionals mirroring the dashboard, and as
 an explicit decision diagram (`Node`) run by a small interpreter that also records
 which flags a run consults. The two are proved equal for every flag combination.
 */
module Narrative {
  import opened Health

  /** The four message kinds of the dashboard: success, warning, error and info boxes. */
  datatype Severity = Success | Warning | Error | Info

  datatype MsgId =
    // dependency flow
    | CallageOk
    | ProductivityOk
    | SecondaryOkPrimaryExpected
    | SecondaryLacking
    | LinesOkCheckMix
    | LinesUnderThreshold
    | ProductivityLagging
    | CallageBelowThreshold
    | RoutesOkCallageIssue
    | MandaysFullyUsed
    | CheckMandaysDeployment
    // value chain
    | LinesOk
    | TpOk
    | FewHighOrManyReasonable
    | SecondaryGoodPrimaryFollows
    | TpOkSecondaryWeak
    | TpWeak
    | ManyLinesLowValue
    | FewHighPriceLines
    | FewLinesLowPrice

  datatype Msg = Msg(sev: Severity, id: MsgId)

  /** The dependency flow analysis (execution chain). */
  function DependencyFlow(f: Flags): (r: seq<Msg>)
    ensures 2 <= |r| <= 4
    ensures r[0] == (if f.callage then Msg(Success, CallageOk) else Msg(Error, CallageBelowThreshold))
    ensures !f.callage ==> |r| == 2
    ensures f.callage && !f.productivity ==> r == [Msg(Success, CallageOk), Msg(Warning, ProductivityLagging)]
    ensures |r| == 4 <==> f.callage && f.productivity && !f.secondary
    ensures forall i :: 1 <= i < |r| ==> r[i].id != CallageOk && r[i].id != CallageBelowThreshold
  {
    if f.callage then
      [Msg(Success, CallageOk)] +
      if f.productivity then
        [Msg(Success, ProductivityOk)] +
        if f.secondary then
          [Msg(Success, SecondaryOkPrimaryExpected)]
        else
          [Msg(Warning, SecondaryLacking)] +
          if f.lines then [Msg(Info, LinesOkCheckMix)] else [Msg(Error, LinesUnderThreshold)]
      else
        [Msg(Warning, ProductivityLagging)]
    else
      [Msg(Error, CallageBelowThreshold)] +
      if f.routes then [Msg(Info, RoutesOkCallageIssue)]
      else if f.manday then [Msg(Info, MandaysFullyUsed)]
      else [Msg(Error, CheckMandaysDeployment)]
  }

  /** The value chain analysis: lines per outlet, then TP per outlet, then secondary. */
  function ValueChain(f: Flags): (r: seq<Msg>)
    ensures 3 <= |r| <= 4
    ensures |r| == 4 <==> f.lines && f.tp
    ensures r[0] == (if f.lines then Msg(Success, LinesOk) else Msg(Error, LinesUnderThreshold))
    ensures r[1].id == (if f.tp then TpOk else TpWeak)
  {
    if f.lines then
      [Msg(Success, LinesOk)] +
      if f.tp then
        [Msg(Success, TpOk), Msg(Info, FewHighOrManyReasonable)] +
        if f.secondary then [Msg(Success, SecondaryGoodPrimaryFollows)]
        else [Msg(Warning, TpOkSecondaryWeak)]
      else
        [Msg(Warning, TpWeak), Msg(Info, ManyLinesLowValue)]
    else
      [Msg(Error, LinesUnderThreshold)] +
      if f.tp then [Msg(Success, TpOk), Msg(Info, FewHighPriceLines)]
      else [Msg(Error, TpWeak), Msg(Info, FewLinesLowPrice)]
  }

  /** The whole narrative: the value chain always follows the dependency flow. */
  function Narrate(f: Flags): (r: seq<Msg>)
    ensures 5 <= |r| <= 8
    ensures r[..|DependencyFlow(f)|] == DependencyFlow(f)
    ensures r[|DependencyFlow(f)|..] == ValueChain(f)
  {
    DependencyFlow(f) + ValueChain(f)
  }

  // ---------------------------------------------------------------------------
  // The trees as decision diagrams

  datatype FlagName = Callage | Routes | Productivity | Lines | Tp | Secondary | Manday

  function Flag(f: Flags, n: FlagName): bool
  {
    match n
    case Callage => f.callage
    case Routes => f.routes
    case Productivity => f.productivity
    case Lines => f.lines
    case Tp => f.tp
    case Secondary => f.secondary
    case Manday => f.manday
  }

  /** `f` with flag `n` set to `b` and every other flag unchanged. */
  function With(f: Flags, n: FlagName, b: bool): (g: Flags)
    ensures Flag(g, n) == b
    ensures forall m :: m != n ==> Flag(g, m) == Flag(f, m)
  {
    match n
    case Callage => f.(callage := b)
    case Routes => f.(routes := b)
    case Productivity => f.(productivity := b)
    case Lines => f.(lines := b)
    case Tp => f.(tp := b)
    case Secondary => f.(secondary := b)
    case Manday => f.(manday := b)
  }

  /** A decision node: stop, emit a message and continue, or branch on one flag. */
  datatype Node = Stop | Say(msg: Msg, next: Node) | Ask(flag: FlagName, yes: Node, no: Node)

  /** The fewest and the most messages any run of a diagram emits. */
  function MinOut(n: Node): nat
  {
    match n
    case Stop => 0
    case Say(_, next) => 1 + MinOut(next)
    case Ask(_, yes, no) => if MinOut(yes) <= MinOut(no) then MinOut(yes) else MinOut(no)
  }

  function MaxOut(n: Node): nat
  {
    match n
    case Stop => 0
    case Say(_, next) => 1 + MaxOut(next)
    case Ask(_, yes, no) => if MaxOut(yes) >= MaxOut(no) then MaxOut(yes) else MaxOut(no)
  }

  /** Runs a diagram on a flag set. */
  function Run(n: Node, f: Flags): (r: seq<Msg>)
    ensures MinOut(n) <= |r| <= MaxOut(n)
  {
    match n
    case Stop => []
    case Say(m, next) => [m] + Run(next, f)
    case Ask(x, yes, no) => if Flag(f, x) then Run(yes, f) else Run(no, f)
  }

  /** The flags a run consults, in the order it consults them. */
  function Consulted(n: Node, f: Flags): (r: seq<FlagName>)
    ensures forall x :: x in r ==> x in Mentioned(n)
  {
    match n
    case Stop => []
    case Say(_, next) => Consulted(next, f)
    case Ask(x, yes, no) => [x] + (if Flag(f, x) then Consulted(yes, f) else Consulted(no, f))
  }

  /** Every flag a diagram branches on anywhere. */
  function Mentioned(n: Node): set<FlagName>
  {
    match n
    case Stop => {}
    case Say(_, next) => Mentioned(next)
    case Ask(x, yes, no) => {x} + Mentioned(yes) + Mentioned(no)
  }

  /** A flag a run does not consult cannot change what the run emits. */
  lemma {:induction false} UnconsultedIrrelevant(n: Node, f: Flags, x: FlagName, b: bool)
    requires x !in Consulted(n, f)
    ensures Run(n, With(f, x, b)) == Run(n, f)
    ensures Consulted(n, With(f, x, b)) == Consulted(n, f)
  {
    match n
    case Stop =>
    case Say(_, next) =>
      UnconsultedIrrelevant(next, f, x, b);
    case Ask(y, yes, no) =>
      assert y != x;
      if Flag(f, y) {
        UnconsultedIrrelevant(yes, f, x, b);
      } else {
        UnconsultedIrrelevant(no, f, x, b);
      }
  }

  /** The dependency flow as a decision diagram. */
  const DependencyTree: Node :=
    Ask(Callage,
      Say(Msg(Success, CallageOk),
        Ask(Productivity,
          Say(Msg(Success, ProductivityOk),
            Ask(Secondary,
              Say(Msg(Success, SecondaryOkPrimaryExpected), Stop),
              Say(Msg(Warning, SecondaryLacking),
                Ask(Lines,
                  Say(Msg(Info, LinesOkCheckMix), Stop),
                  Say(Msg(Error, LinesUnderThreshold), Stop))))),
          Say(Msg(Warning, ProductivityLagging), Stop))),
      Say(Msg(Error, CallageBelowThreshold),
        Ask(Routes,
          Say(Msg(Info, RoutesOkCallageIssue), Stop),
          Ask(Manday,
            Say(Msg(Info, MandaysFullyUsed), Stop),
            Say(Msg(Error, CheckMandaysDeployment), Stop)))))

  /** The value chain as a decision diagram. */
  const ValueTree: Node :=
    Ask(Lines,
      Say(Msg(Success, LinesOk),
        Ask(Tp,
          Say(Msg(Success, TpOk), Say(Msg(Info, FewHighOrManyReasonable),
            Ask(Secondary,
              Say(Msg(Success, SecondaryGoodPrimaryFollows), Stop),
              Say(Msg(Warning, TpOkSecondaryWeak), Stop)))),
          Say(Msg(Warning, TpWeak), Say(Msg(Info, ManyLinesLowValue), Stop)))),
      Say(Msg(Error, LinesUnderThreshold),
        Ask(Tp,
          Say(Msg(Success, TpOk), Say(Msg(Info, FewHighPriceLines), Stop)),
          Say(Msg(Error, TpWeak), Say(Msg(Info, FewLinesLowPrice), Stop)))))

  /** Every run of the dependency tree emits two to four messages, of the value tree three or four. */
  lemma DiagramOutputBounds()
    ensures MinOut(DependencyTree) == 2 && MaxOut(DependencyTree) == 4
    ensures MinOut(ValueTree) == 3 && MaxOut(ValueTree) == 4
  {
  }

  lemma DependencyTreeIsDependencyFlow(f: Flags)
    ensures Run(DependencyTree, f) == DependencyFlow(f)
  {
  }

  lemma ValueTreeIsValueChain(f: Flags)
    ensures Run(ValueTree, f) == ValueChain(f)
  {
  }

  /** The dependency flow never reads the TP flag, and consults at most four flags. */
  lemma DependencyTreeReads(f: Flags)
    ensures Mentioned(DependencyTree) == {Callage, Productivity, Secondary, Lines, Routes, Manday}
    ensures Tp !in Consulted(DependencyTree, f)
    ensures |Consulted(DependencyTree, f)| <= 4
    // callage failing: only routes, then manday, are read after it
    ensures !f.callage ==>
      Consulted(DependencyTree, f) == (if f.routes then [Callage, Routes] else [Callage, Routes, Manday])
    // callage passing, productivity failing: secondary and lines are never read
    ensures f.callage && !f.productivity ==> Consulted(DependencyTree, f) == [Callage, Productivity]
  {
  }

  /** The value chain reads only lines, TP and secondary; secondary only behind healthy lines and TP. */
  lemma ValueTreeReads(f: Flags)
    ensures Mentioned(ValueTree) == {Lines, Tp, Secondary}
    ensures Secondary in Consulted(ValueTree, f) <==> f.lines && f.tp
    ensures Consulted(ValueTree, f) == (if f.lines && f.tp then [Lines, Tp, Secondary] else [Lines, Tp])
  {
  }

  /** The dependency flow's output does not depend on the TP flag. */
  lemma DependencyFlowIgnoresTp(f: Flags, b: bool)
    ensures DependencyFlow(f.(tp := b)) == DependencyFlow(f)
  {
    DependencyTreeReads(f);
    UnconsultedIrrelevant(DependencyTree, f, Tp, b);
    DependencyTreeIsDependencyFlow(f);
    DependencyTreeIsDependencyFlow(With(f, Tp, b));
  }

  /** With callage failing, the dependency flow depends on the routes and manday flags only. */
  lemma CallageFailureDependsOnRoutesAndManday(f: Flags, g: Flags)
    requires !f.callage && !g.callage
    requires f.routes == g.routes && f.manday == g.manday
    ensures DependencyFlow(f) == DependencyFlow(g)
    ensures DependencyFlow(f)[0].sev == Error
  {
  }

  /** The value chain depends on the lines, TP and secondary flags only. */
  lemma ValueChainDependsOnLinesTpSecondary(f: Flags, g: Flags)
    requires f.lines == g.lines && f.tp == g.tp && f.secondary == g.secondary
    ensures ValueChain(f) == ValueChain(g)
  {
  }

  /** Unless lines and TP are both healthy, the value chain ignores the secondary flag. */
  lemma ValueChainSecondaryOnlyBehindLinesAndTp(f: Flags, b: bool)
    requires !(f.lines && f.tp)
    ensures ValueChain(f.(secondary := b)) == ValueChain(f)
  {
  }
}
