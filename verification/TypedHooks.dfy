/** Typed pre-tool handlers: a catalogue of declarations, their bindings, and the fold that applies them. */
module TypedHooks {
  import opened Basics
  import opened Turns
  import opened Sorting
  import opened Diagnostics

  const MAX_HANDLER_NAMES: nat := 32

  datatype Declaration = Declaration(name: string, version: string, priority: int)

  type Arguments = map<string, Json>

  /** `Fails` stands for an exception, an invalid decision, or a rewrite that is no JSON. */
  datatype Decision = Unchanged | Rewrite(arguments: Arguments) | Block(reason: string) | Diagnostic(text: string) | Fails(message: string)

  type Handler = Arguments -> Decision

  datatype Binding = Binding(declaration: Declaration, handler: Handler)

  datatype RegistryError = DuplicateName | BindingMismatch | NotMaterialized

  /** Declarations by name, in the order of registration; bindings in the order they run. */
  datatype Registry = Registry(declarations: seq<Declaration>, bindings: seq<Binding>)

  // ---- Building a registry ----

  function Names(declarations: seq<Declaration>): (names: seq<string>)
    ensures |names| == |declarations|
    ensures forall i | 0 <= i < |declarations| :: names[i] == declarations[i].name
  {
    seq(|declarations|, i requires 0 <= i < |declarations| => declarations[i].name)
  }

  function Declared(bindings: seq<Binding>): (declarations: seq<Declaration>)
    ensures |declarations| == |bindings|
    ensures forall i | 0 <= i < |bindings| :: declarations[i] == bindings[i].declaration
  {
    seq(|bindings|, i requires 0 <= i < |bindings| => bindings[i].declaration)
  }

  function PriorityOf(d: Declaration): Key {
    Key(0, 0, d.priority)
  }

  /** The binding of a name; None when it has none. */
  function BindingOf(bindings: seq<Binding>, name: string): Option<Binding> {
    if bindings == [] then None
    else if Last(bindings).declaration.name == name then Some(Last(bindings))
    else BindingOf(Front(bindings), name)
  }

  /** The bindings of those declarations that have one, in the given order. */
  function BoundIn(order: seq<Declaration>, bindings: seq<Binding>): seq<Binding> {
    if order == [] then []
    else
      var found := BindingOf(bindings, Last(order).name);
      BoundIn(Front(order), bindings) + (if found.Some? then [found.value] else [])
  }

  /** Every binding is for one of the declarations, and no two are for the same. */
  predicate BindingsMatch(bindings: seq<Binding>, declarations: seq<Declaration>) {
    && AllDifferent(Names(Declared(bindings)))
    && forall i | 0 <= i < |bindings| :: bindings[i].declaration in declarations
  }

  function Build(bindings: seq<Binding>, declarations: seq<Declaration>): Result<Registry, RegistryError> {
    if !AllDifferent(Names(declarations)) then Raise(DuplicateName)
    else if !BindingsMatch(bindings, declarations) then Raise(BindingMismatch)
    else Ok(Registry(declarations, BoundIn(SortBy(declarations, PriorityOf), bindings)))
  }

  method CheckDeclarations(declared: seq<Declaration>) returns (byName: Option<map<string, Declaration>>)
    ensures byName.Some? <==> AllDifferent(Names(declared))
    ensures byName.Some? ==> forall d: Declaration :: (d.name in byName.value && byName.value[d.name] == d) <==> d in declared
  {
    var found: map<string, Declaration> := map[];
    for i := 0 to |declared|
      invariant forall j, k | 0 <= j < k < i :: declared[j].name != declared[k].name
      invariant forall name :: name in found <==> exists j :: 0 <= j < i && declared[j].name == name
      invariant forall j | 0 <= j < i :: found[declared[j].name] == declared[j]
    {
      if declared[i].name in found {
        var j :| 0 <= j < i && declared[j].name == declared[i].name;
        assert Names(declared)[j] == Names(declared)[i];
        return None;
      }
      found := found[declared[i].name := declared[i]];
    }
    assert forall j, k | 0 <= j < k < |declared| :: Names(declared)[j] != Names(declared)[k];
    return Some(found);
  }

  method CheckBindings(bound: seq<Binding>, declared: seq<Declaration>, byName: map<string, Declaration>) returns (ok: bool)
    requires forall d: Declaration :: (d.name in byName && byName[d.name] == d) <==> d in declared
    ensures ok <==> BindingsMatch(bound, declared)
  {
    var seen: set<string> := {};
    for i := 0 to |bound|
      invariant forall j, k | 0 <= j < k < i :: bound[j].declaration.name != bound[k].declaration.name
      invariant forall name :: name in seen <==> exists j :: 0 <= j < i && bound[j].declaration.name == name
      invariant forall j | 0 <= j < i :: bound[j].declaration in declared
    {
      var d := bound[i].declaration;
      if d.name in seen {
        var j :| 0 <= j < i && bound[j].declaration.name == d.name;
        assert Names(Declared(bound))[j] == Names(Declared(bound))[i];
        return false;
      }
      if d.name !in byName || byName[d.name] != d {
        return false;
      }
      seen := seen + {d.name};
    }
    return true;
  }

  /** The constructor of the registry; without declarations the bindings declare themselves. */
  method NewRegistry(bound: seq<Binding>, declarations: Option<seq<Declaration>>) returns (r: Result<Registry, RegistryError>)
    ensures r == Build(bound, if declarations.Some? then declarations.value else Declared(bound))
  {
    var declared := if declarations.Some? then declarations.value else Declared(bound);
    var byName := CheckDeclarations(declared);
    if byName.None? {
      return Raise(DuplicateName);
    }
    var ok := CheckBindings(bound, declared, byName.value);
    if !ok {
      return Raise(BindingMismatch);
    }
    var sorted := SortBy(declared, PriorityOf);
    var running: seq<Binding> := [];
    for i := 0 to |sorted|
      invariant running == BoundIn(sorted[..i], bound)
    {
      assert Front(sorted[..i + 1]) == sorted[..i];
      var found := BindingOf(bound, sorted[i].name);
      if found.Some? {
        running := running + [found.value];
      }
    }
    assert sorted[..|sorted|] == sorted;
    return Ok(Registry(declared, running));
  }

  // ---- The order in which handlers run ----

  lemma {:induction false} BindingOfFinds(bindings: seq<Binding>, i: nat)
    requires AllDifferent(Names(Declared(bindings))) && i < |bindings|
    ensures BindingOf(bindings, bindings[i].declaration.name) == Some(bindings[i])
  {
    var names := Names(Declared(bindings));
    if i < |bindings| - 1 {
      assert names[i] != names[|bindings| - 1];
      var front := Front(bindings);
      assert forall j | 0 <= j < |front| :: Names(Declared(front))[j] == names[j];
      BindingOfFinds(front, i);
    }
  }

  lemma {:induction false} BindingOfIs(bindings: seq<Binding>, name: string)
    ensures BindingOf(bindings, name).Some? ==>
              BindingOf(bindings, name).value.declaration.name == name &&
              exists i :: 0 <= i < |bindings| && bindings[i] == BindingOf(bindings, name).value
    ensures BindingOf(bindings, name).None? ==> forall i | 0 <= i < |bindings| :: bindings[i].declaration.name != name
  {
    if bindings != [] && Last(bindings).declaration.name != name {
      BindingOfIs(Front(bindings), name);
      if BindingOf(bindings, name).Some? {
        var i :| 0 <= i < |Front(bindings)| && Front(bindings)[i] == BindingOf(bindings, name).value;
        assert bindings[i] == Front(bindings)[i];
      }
    } else if bindings != [] {
      assert bindings[|bindings| - 1] == Last(bindings);
    }
  }

  /** Does a declaration have its own binding? */
  predicate IsBound(bindings: seq<Binding>, d: Declaration) {
    BindingOf(bindings, d.name).Some?
  }

  function BoundOnly(order: seq<Declaration>, bindings: seq<Binding>): seq<Declaration> {
    if order == [] then []
    else BoundOnly(Front(order), bindings) + (if IsBound(bindings, Last(order)) then [Last(order)] else [])
  }

  lemma {:induction false} BoundInDeclares(order: seq<Declaration>, bindings: seq<Binding>, declarations: seq<Declaration>)
    requires AllDifferent(Names(declarations)) && BindingsMatch(bindings, declarations)
    requires forall i | 0 <= i < |order| :: order[i] in declarations
    ensures Declared(BoundIn(order, bindings)) == BoundOnly(order, bindings)
  {
    if order != [] {
      BoundInDeclares(Front(order), bindings, declarations);
      var d := Last(order);
      BindingOfIs(bindings, d.name);
      if IsBound(bindings, d) {
        var b := BindingOf(bindings, d.name).value;
        SameNameSame(declarations, b.declaration, d);
        assert Declared(BoundIn(order, bindings)) == Declared(BoundIn(Front(order), bindings)) + [b.declaration];
      } else {
        assert BoundIn(order, bindings) == BoundIn(Front(order), bindings);
      }
    }
  }

  lemma SameNameSame(declarations: seq<Declaration>, a: Declaration, b: Declaration)
    requires AllDifferent(Names(declarations)) && a in declarations && b in declarations && a.name == b.name
    ensures a == b
  {
    var i :| 0 <= i < |declarations| && declarations[i] == a;
    var j :| 0 <= j < |declarations| && declarations[j] == b;
    assert Names(declarations)[i] == Names(declarations)[j];
  }

  lemma {:induction false} BoundOnlySorted(order: seq<Declaration>, bindings: seq<Binding>)
    requires Sorted(order, PriorityOf)
    ensures Sorted(BoundOnly(order, bindings), PriorityOf)
    ensures forall i | 0 <= i < |BoundOnly(order, bindings)| :: BoundOnly(order, bindings)[i] in order
  {
    if order != [] {
      BoundOnlySorted(Front(order), bindings);
      assert order == Front(order) + [Last(order)];
      var front := BoundOnly(Front(order), bindings);
      forall i | 0 <= i < |front| ensures !Below(PriorityOf(Last(order)), PriorityOf(front[i])) {
        var j :| 0 <= j < |Front(order)| && Front(order)[j] == front[i];
        assert order[j] == front[i];
      }
    }
  }

  lemma OfKeySnoc(s: seq<Declaration>, x: Declaration, k: Key)
    ensures OfKey(s + [x], PriorityOf, k) == OfKey(s, PriorityOf, k) + (if PriorityOf(x) == k then [x] else [])
  {
    assert Front(s + [x]) == s;
  }

  lemma BoundOnlySnoc(s: seq<Declaration>, x: Declaration, bindings: seq<Binding>)
    ensures BoundOnly(s + [x], bindings) == BoundOnly(s, bindings) + (if IsBound(bindings, x) then [x] else [])
  {
    assert Front(s + [x]) == s;
  }

  lemma {:induction false} BoundOnlyOfKey(order: seq<Declaration>, bindings: seq<Binding>, k: Key)
    ensures OfKey(BoundOnly(order, bindings), PriorityOf, k) == BoundOnly(OfKey(order, PriorityOf, k), bindings)
  {
    if order != [] {
      var front, x := Front(order), Last(order);
      BoundOnlyOfKey(front, bindings, k);
      OfKeySnoc(BoundOnly(front, bindings), x, k);
      BoundOnlySnoc(OfKey(front, PriorityOf, k), x, bindings);
      if !IsBound(bindings, x) {
        assert BoundOnly(order, bindings) == BoundOnly(front, bindings);
      }
      if PriorityOf(x) != k {
        assert OfKey(order, PriorityOf, k) == OfKey(front, PriorityOf, k);
      }
    }
  }

  /**
   Handlers run by priority; those of one priority run in the order of their declarations; exactly the
   bound ones run.
   */
  lemma HandlersRunInOrder(bindings: seq<Binding>, declarations: seq<Declaration>, priority: int)
    requires Build(bindings, declarations).Ok?
    ensures var order := Declared(Build(bindings, declarations).value.bindings);
            && Sorted(order, PriorityOf)
            && OfKey(order, PriorityOf, Key(0, 0, priority)) ==
               BoundOnly(OfKey(declarations, PriorityOf, Key(0, 0, priority)), bindings)
  {
    var sorted := SortBy(declarations, PriorityOf);
    SortSorts(declarations, PriorityOf);
    forall i | 0 <= i < |sorted| ensures sorted[i] in declarations {
      var j := InPermutation(sorted, declarations, i);
    }
    BoundInDeclares(sorted, bindings, declarations);
    BoundOnlySorted(sorted, bindings);
    BoundOnlyOfKey(sorted, bindings, Key(0, 0, priority));
    SortIsStable(declarations, PriorityOf, Key(0, 0, priority));
  }

  // ---- Applying ----

  datatype Action = ActUnchanged | ActRewrite | ActBlock | ActDiagnostic

  datatype Outcome = Outcome(
    arguments: Arguments,
    action: Action,
    diagnostics: seq<string>,
    handlers: seq<Declaration>,
    omitted: nat,
    reason: Option<string>)

  /** The arguments as the handlers before position n leave them. */
  function ArgumentsAt(bindings: seq<Binding>, given: Arguments, n: nat): Arguments
    requires n <= |bindings|
  {
    if n == 0 then given
    else
      var before := ArgumentsAt(bindings, given, n - 1);
      var decision := bindings[n - 1].handler(before);
      if decision.Rewrite? then decision.arguments else before
  }

  function DecisionAt(bindings: seq<Binding>, given: Arguments, i: nat): Decision
    requires i < |bindings|
  {
    bindings[i].handler(ArgumentsAt(bindings, given, i))
  }

  predicate Stops(d: Decision) {
    d.Block? || d.Fails?
  }

  /** The position of the first handler that blocks or fails; the number of handlers when none does. */
  function CutAt(bindings: seq<Binding>, given: Arguments, from: nat): (n: nat)
    requires from <= |bindings|
    ensures from <= n <= |bindings|
    ensures forall i | from <= i < n :: !Stops(DecisionAt(bindings, given, i))
    ensures n < |bindings| ==> Stops(DecisionAt(bindings, given, n))
    decreases |bindings| - from
  {
    if from == |bindings| || Stops(DecisionAt(bindings, given, from)) then from else CutAt(bindings, given, from + 1)
  }

  function Texts(bindings: seq<Binding>, given: Arguments, n: nat): seq<string>
    requires n <= |bindings|
  {
    if n == 0 then []
    else
      var decision := DecisionAt(bindings, given, n - 1);
      Texts(bindings, given, n - 1) + (if decision.Diagnostic? then [decision.text] else [])
  }

  predicate ChangedBy(bindings: seq<Binding>, given: Arguments, n: nat)
    requires n <= |bindings|
  {
    exists i: nat | i < n :: ChangesAt(bindings, given, i)
  }

  function FailureText(name: string, message: string): string {
    "tool input handler '" + name + "' failed: " + message
  }

  /** The declarations an outcome names after some handlers have run. */
  function Recorded(bindings: seq<Binding>, ran: nat): seq<Declaration>
    requires ran <= |bindings|
  {
    Declared(bindings[..if ran <= MAX_HANDLER_NAMES then ran else MAX_HANDLER_NAMES])
  }

  lemma RecordedNext(bindings: seq<Binding>, n: nat)
    requires n < |bindings|
    ensures |Recorded(bindings, n)| == if n <= MAX_HANDLER_NAMES then n else MAX_HANDLER_NAMES
    ensures Recorded(bindings, n + 1) ==
            if |Recorded(bindings, n)| < MAX_HANDLER_NAMES then Recorded(bindings, n) + [bindings[n].declaration] else Recorded(bindings, n)
  {
  }

  /** Why a handler stopped the call. */
  function ReasonOf(name: string, d: Decision, safe: string -> string): Option<string> {
    match d
    case Block(reason) => Some(reason)
    case Fails(message) => Some(safe(FailureText(name, message)))
    case _ => None
  }

  /** The outcome in one piece: a left fold of the handlers, cut at the first block or failure. */
  function Applied(bindings: seq<Binding>, given: Arguments, safe: string -> string): Outcome {
    var cut := CutAt(bindings, given, 0);
    var ran := if cut < |bindings| then cut + 1 else cut;
    var texts := Texts(bindings, given, cut);
    Outcome(
      ArgumentsAt(bindings, given, cut),
      if cut < |bindings| then ActBlock
      else if ChangedBy(bindings, given, cut) then ActRewrite
      else if texts != [] then ActDiagnostic
      else ActUnchanged,
      Bounded(texts),
      Recorded(bindings, ran),
      ran - |Recorded(bindings, ran)|,
      if cut == |bindings| then None
      else ReasonOf(bindings[cut].declaration.name, DecisionAt(bindings, given, cut), safe))
  }

  /** Does the handler at a position change the arguments it is given? */
  predicate ChangesAt(bindings: seq<Binding>, given: Arguments, i: nat)
    requires i < |bindings|
  {
    ArgumentsAt(bindings, given, i + 1) != ArgumentsAt(bindings, given, i)
  }

  lemma ChangedNext(bindings: seq<Binding>, given: Arguments, n: nat)
    requires n < |bindings|
    ensures ChangedBy(bindings, given, n + 1) <==> ChangedBy(bindings, given, n) || ChangesAt(bindings, given, n)
  {
  }

  lemma AppliedStopped(bindings: seq<Binding>, given: Arguments, safe: string -> string, i: nat)
    requires i < |bindings| && CutAt(bindings, given, 0) == CutAt(bindings, given, i) && Stops(DecisionAt(bindings, given, i))
    ensures Applied(bindings, given, safe) ==
            Outcome(ArgumentsAt(bindings, given, i), ActBlock, Bounded(Texts(bindings, given, i)), Recorded(bindings, i + 1),
                    i + 1 - |Recorded(bindings, i + 1)|, ReasonOf(bindings[i].declaration.name, DecisionAt(bindings, given, i), safe))
  {
    assert CutAt(bindings, given, i) == i;
  }

  lemma AppliedThrough(bindings: seq<Binding>, given: Arguments, safe: string -> string)
    requires CutAt(bindings, given, 0) == |bindings|
    ensures var texts, n := Bounded(Texts(bindings, given, |bindings|)), |bindings|;
            Applied(bindings, given, safe) ==
            Outcome(ArgumentsAt(bindings, given, n),
                    if ChangedBy(bindings, given, n) then ActRewrite else if texts != [] then ActDiagnostic else ActUnchanged,
                    texts, Recorded(bindings, n), n - |Recorded(bindings, n)|, None)
  {
  }

  lemma Unfold(bindings: seq<Binding>, given: Arguments, i: nat)
    requires i < |bindings|
    ensures var d := DecisionAt(bindings, given, i);
            && d == bindings[i].handler(ArgumentsAt(bindings, given, i))
            && ArgumentsAt(bindings, given, i + 1) == (if d.Rewrite? then d.arguments else ArgumentsAt(bindings, given, i))
            && Texts(bindings, given, i + 1) == Texts(bindings, given, i) + (if d.Diagnostic? then [d.text] else [])
            && (!Stops(d) ==> CutAt(bindings, given, i) == CutAt(bindings, given, i + 1))
  {
  }

  method Apply(registry: Registry, given: Arguments, safe: string -> string) returns (r: Option<Outcome>)
    ensures r.None? <==> |registry.bindings| != |registry.declarations|
    ensures r.Some? ==> r.value == Applied(registry.bindings, given, safe)
  {
    var bindings := registry.bindings;
    if |bindings| != |registry.declarations| {
      return None;
    }
    var current, changed, omitted := given, false, 0;
    var diagnostics: seq<string>, handlers: seq<Declaration> := [], [];
    for i := 0 to |bindings|
      invariant CutAt(bindings, given, 0) == CutAt(bindings, given, i)
      invariant current == ArgumentsAt(bindings, given, i)
      invariant changed <==> ChangedBy(bindings, given, i)
      invariant diagnostics == Bounded(Texts(bindings, given, i))
      invariant handlers == Recorded(bindings, i) && omitted == i - |handlers|
    {
      Unfold(bindings, given, i);
      RecordedNext(bindings, i);
      ChangedNext(bindings, given, i);
      if |handlers| < MAX_HANDLER_NAMES {
        handlers := handlers + [bindings[i].declaration];
      } else {
        omitted := omitted + 1;
      }
      var decision := bindings[i].handler(current);
      if decision.Fails? || decision.Block? {
        AppliedStopped(bindings, given, safe, i);
        return Some(Outcome(current, ActBlock, diagnostics, handlers, omitted, ReasonOf(bindings[i].declaration.name, decision, safe)));
      }
      if decision.Diagnostic? {
        AppendKeepsBound(Texts(bindings, given, i), decision.text);
        diagnostics := AppendDiagnostic(diagnostics, decision.text);
      } else if decision.Rewrite? {
        changed := changed || decision.arguments != current;
        current := decision.arguments;
      }
    }
    AppliedThrough(bindings, given, safe);
    var action := if changed then ActRewrite else if diagnostics != [] then ActDiagnostic else ActUnchanged;
    return Some(Outcome(current, action, diagnostics, handlers, omitted, None));
  }

  /** What the bookkeeping of an outcome amounts to. */
  lemma OutcomeExact(bindings: seq<Binding>, given: Arguments, safe: string -> string)
    ensures var r := Applied(bindings, given, safe);
            var cut := CutAt(bindings, given, 0);
            var ran := if cut < |bindings| then cut + 1 else cut;
            && |r.handlers| + r.omitted == ran
            && |r.handlers| <= 32 && (r.omitted > 0 ==> |r.handlers| == 32)
            && r.handlers <= Declared(bindings)
            && |r.diagnostics| <= 33
            && (|r.diagnostics| == 33 <==> |Texts(bindings, given, cut)| > 32)
            && (r.action.ActBlock? <==> cut < |bindings|)
            && (r.action.ActBlock? <==> r.reason.Some?)
            && (r.action.ActRewrite? <==> cut == |bindings| && ChangedBy(bindings, given, cut))
            && (r.arguments != given ==> ChangedBy(bindings, given, cut))
  {
    UnchangedAll(bindings, given, CutAt(bindings, given, 0));
  }

  lemma {:induction false} UnchangedAll(bindings: seq<Binding>, given: Arguments, n: nat)
    requires n <= |bindings|
    ensures !ChangedBy(bindings, given, n) ==> ArgumentsAt(bindings, given, n) == given
  {
    if n > 0 {
      UnchangedAll(bindings, given, n - 1);
      ChangedNext(bindings, given, n - 1);
      if !ChangedBy(bindings, given, n) {
        assert !ChangesAt(bindings, given, n - 1);
      }
    }
  }

  /** Each handler sees the arguments as the last rewrite before it left them; without one, as they were given. */
  lemma {:induction false} ArgumentsExactly(bindings: seq<Binding>, given: Arguments, n: nat) returns (k: nat)
    requires n <= |bindings|
    ensures k <= n && forall i | k <= i < n :: !DecisionAt(bindings, given, i).Rewrite?
    ensures if k == 0 then ArgumentsAt(bindings, given, n) == given
            else DecisionAt(bindings, given, k - 1).Rewrite? && ArgumentsAt(bindings, given, n) == DecisionAt(bindings, given, k - 1).arguments
  {
    if n == 0 {
      k := 0;
    } else if DecisionAt(bindings, given, n - 1).Rewrite? {
      k := n;
    } else {
      k := ArgumentsExactly(bindings, given, n - 1);
    }
  }

  lemma {:induction false} TextsExactly(bindings: seq<Binding>, given: Arguments, n: nat, i: nat)
    requires i < n <= |bindings| && DecisionAt(bindings, given, i).Diagnostic?
    ensures |Texts(bindings, given, i)| < |Texts(bindings, given, n)|
    ensures Texts(bindings, given, n)[|Texts(bindings, given, i)|] == DecisionAt(bindings, given, i).text
  {
    if i < n - 1 {
      TextsExactly(bindings, given, n - 1, i);
    }
  }

  /**
   What an outcome hands on: the arguments of the last rewrite before the cut, the diagnostics up to it, and
   as reason what the blocking handler said, or that and how the failing one failed.
   */
  lemma OutcomeTells(bindings: seq<Binding>, given: Arguments, safe: string -> string) returns (k: nat)
    ensures var r, cut := Applied(bindings, given, safe), CutAt(bindings, given, 0);
            && k <= cut && (forall i | k <= i < cut :: !DecisionAt(bindings, given, i).Rewrite?)
            && (if k == 0 then r.arguments == given
                else DecisionAt(bindings, given, k - 1).Rewrite? && r.arguments == DecisionAt(bindings, given, k - 1).arguments)
            && r.diagnostics == Bounded(Texts(bindings, given, cut))
            && (r.action.ActDiagnostic? <==>
                  cut == |bindings| && !ChangedBy(bindings, given, cut) && exists i: nat | i < cut :: DecisionAt(bindings, given, i).Diagnostic?)
            && (cut < |bindings| ==>
                  var d := DecisionAt(bindings, given, cut);
                  r.reason == Some(if d.Block? then d.reason
                                   else safe("tool input handler '" + bindings[cut].declaration.name + "' failed: " + d.message)))
  {
    var cut := CutAt(bindings, given, 0);
    k := ArgumentsExactly(bindings, given, cut);
    SomeText(bindings, given, cut);
  }

  lemma {:induction false} SomeText(bindings: seq<Binding>, given: Arguments, n: nat)
    requires n <= |bindings|
    ensures Texts(bindings, given, n) != [] <==> exists i: nat | i < n :: DecisionAt(bindings, given, i).Diagnostic?
  {
    if n > 0 {
      SomeText(bindings, given, n - 1);
    }
  }

  /** Handlers behind a block or a failure make no difference. */
  lemma CutHidesTheRest(bindings: seq<Binding>, others: seq<Binding>, given: Arguments, safe: string -> string)
    requires CutAt(bindings, given, 0) < |bindings|
    ensures Applied(bindings + others, given, safe) == Applied(bindings, given, safe)
  {
    var n := CutAt(bindings, given, 0);
    SamePrefix(bindings, others, given, n);
    CutIs(bindings + others, given, 0, n);
    TextsPrefix(bindings, others, given, n);
    assert Recorded(bindings + others, n + 1) == Recorded(bindings, n + 1);
  }

  lemma {:induction false} SamePrefix(bindings: seq<Binding>, others: seq<Binding>, given: Arguments, n: nat)
    requires n < |bindings|
    ensures forall i | 0 <= i <= n ::
              ArgumentsAt(bindings + others, given, i) == ArgumentsAt(bindings, given, i) &&
              DecisionAt(bindings + others, given, i) == DecisionAt(bindings, given, i)
  {
    if n > 0 {
      SamePrefix(bindings, others, given, n - 1);
      assert ArgumentsAt(bindings + others, given, n) == ArgumentsAt(bindings, given, n);
    }
  }

  lemma {:induction false} CutIs(bindings: seq<Binding>, given: Arguments, from: nat, n: nat)
    requires from <= n < |bindings| && Stops(DecisionAt(bindings, given, n))
    requires forall i | from <= i < n :: !Stops(DecisionAt(bindings, given, i))
    ensures CutAt(bindings, given, from) == n
    decreases n - from
  {
    if from < n {
      CutIs(bindings, given, from + 1, n);
    }
  }

  lemma {:induction false} TextsPrefix(bindings: seq<Binding>, others: seq<Binding>, given: Arguments, n: nat)
    requires n < |bindings|
    ensures Texts(bindings + others, given, n) == Texts(bindings, given, n)
  {
    if n > 0 {
      TextsPrefix(bindings, others, given, n - 1);
      SamePrefix(bindings, others, given, n - 1);
    }
  }

  // ---- Binding what is declared only ----

  /** Makes the binding of a name; None stands for an exception. */
  type Materializer = string -> Option<Binding>

  function BindOne(d: Declaration, existing: seq<Binding>, materialize: Materializer): Option<Binding> {
    var found := BindingOf(existing, d.name);
    if found.Some? then found else materialize(d.name)
  }

  function BindEach(declarations: seq<Declaration>, existing: seq<Binding>, materialize: Materializer): Result<seq<Binding>, RegistryError> {
    if declarations == [] then Ok([])
    else
      var front := BindEach(Front(declarations), existing, materialize);
      if front.Raise? then front
      else
        var made := BindOne(Last(declarations), existing, materialize);
        if made.None? || made.value.declaration != Last(declarations) then Raise(NotMaterialized)
        else Ok(front.value + [made.value])
  }

  function Bind(registry: Registry, materialize: Materializer): Result<Registry, RegistryError> {
    if |registry.bindings| == |registry.declarations| then Ok(registry)
    else
      var bound := BindEach(registry.declarations, registry.bindings, materialize);
      if bound.Raise? then Raise(bound.error) else Build(bound.value, registry.declarations)
  }

  lemma {:induction false} BindEachDeclares(declarations: seq<Declaration>, existing: seq<Binding>, materialize: Materializer)
    requires BindEach(declarations, existing, materialize).Ok?
    ensures var bound := BindEach(declarations, existing, materialize).value;
            && Declared(bound) == declarations
            && forall i | 0 <= i < |declarations| :: Some(bound[i]) == BindOne(declarations[i], existing, materialize)
  {
    if declarations != [] {
      BindEachDeclares(Front(declarations), existing, materialize);
      var front := BindEach(Front(declarations), existing, materialize).value;
      var bound := BindEach(declarations, existing, materialize).value;
      assert bound == front + [Last(bound)];
      assert Declared(bound) == Declared(front) + [Last(bound).declaration];
    }
  }

  lemma {:induction false} AllBound(order: seq<Declaration>, bindings: seq<Binding>)
    requires forall d | d in order :: IsBound(bindings, d)
    ensures BoundOnly(order, bindings) == order
  {
    if order != [] {
      var front, last := Front(order), Last(order);
      assert front + [last] == order;
      AllBound(front, bindings);
      BoundOnlySnoc(front, last, bindings);
    }
  }

  lemma {:induction false} FullIsBound(order: seq<Declaration>, bindings: seq<Binding>)
    ensures |BoundOnly(order, bindings)| <= |order|
    ensures |BoundOnly(order, bindings)| == |order| ==> forall i | 0 <= i < |order| :: IsBound(bindings, order[i])
  {
    if order != [] {
      FullIsBound(Front(order), bindings);
      assert forall i | 0 <= i < |order| - 1 :: order[i] == Front(order)[i];
    }
  }

  predicate Named(order: seq<Declaration>, name: string) {
    exists i :: 0 <= i < |order| && order[i].name == name
  }

  lemma NamedSnoc(front: seq<Declaration>, last: Declaration, name: string)
    ensures Named(front + [last], name) <==> Named(front, name) || last.name == name
  {
    var order := front + [last];
    assert order[|front|] == last;
    if Named(front, name) {
      var i :| 0 <= i < |front| && front[i].name == name;
      assert order[i].name == name;
    }
  }

  lemma BindingOfSnoc(bindings: seq<Binding>, b: Binding, name: string)
    ensures BindingOf(bindings + [b], name) == if b.declaration.name == name then Some(b) else BindingOf(bindings, name)
  {
    assert Front(bindings + [b]) == bindings;
  }

  lemma {:induction false} BoundInFinds(order: seq<Declaration>, bindings: seq<Binding>, name: string)
    ensures BindingOf(BoundIn(order, bindings), name) == if Named(order, name) then BindingOf(bindings, name) else None
  {
    if order != [] {
      var front, last := Front(order), Last(order);
      BoundInFinds(front, bindings, name);
      BindingOfIs(bindings, last.name);
      NamedSnoc(front, last, name);
      assert order == front + [last];
      var found := BindingOf(bindings, last.name);
      if found.Some? {
        BindingOfSnoc(BoundIn(front, bindings), found.value, name);
      } else {
        assert BoundIn(order, bindings) == BoundIn(front, bindings);
      }
    }
  }

  /** Does the declaration have its binding, or is one made for it that declares just it? */
  predicate Bindable(d: Declaration, bindings: seq<Binding>, materialize: Materializer) {
    IsBound(bindings, d) || (materialize(d.name).Some? && materialize(d.name).value.declaration == d)
  }

  lemma {:induction false} BindEachExactly(declarations: seq<Declaration>, existing: seq<Binding>, materialize: Materializer)
    requires forall d | d in declarations && IsBound(existing, d) :: BindingOf(existing, d.name).value.declaration == d
    ensures BindEach(declarations, existing, materialize).Ok? <==> forall d | d in declarations :: Bindable(d, existing, materialize)
  {
    if declarations != [] {
      var front, d := Front(declarations), Last(declarations);
      BindEachExactly(front, existing, materialize);
      assert declarations == front + [d];
    }
  }

  lemma OwnBinding(declarations: seq<Declaration>, bindings: seq<Binding>, d: Declaration)
    requires AllDifferent(Names(declarations)) && BindingsMatch(bindings, declarations) && d in declarations && IsBound(bindings, d)
    ensures BindingOf(bindings, d.name).value.declaration == d
  {
    BindingOfIs(bindings, d.name);
    SameNameSame(declarations, BindingOf(bindings, d.name).value.declaration, d);
  }

  /** Every declaration finds in the registry the binding that was given for it. */
  lemma BuildKeepsBindings(declarations: seq<Declaration>, bindings: seq<Binding>)
    requires Build(bindings, declarations).Ok?
    ensures var kept := Build(bindings, declarations).value.bindings;
            && (forall d | d in declarations :: BindingOf(kept, d.name) == BindingOf(bindings, d.name))
            && (|kept| == |declarations| ==> forall d | d in declarations :: IsBound(bindings, d))
  {
    var sorted := SortBy(declarations, PriorityOf);
    SortSorts(declarations, PriorityOf);
    assert |sorted| == |multiset(sorted)| == |multiset(declarations)| == |declarations|;
    forall i | 0 <= i < |sorted| ensures sorted[i] in declarations {
      var j := InPermutation(sorted, declarations, i);
    }
    BoundInDeclares(sorted, bindings, declarations);
    FullIsBound(sorted, bindings);
    forall d | d in declarations
      ensures Named(sorted, d.name) && d in sorted
      ensures BindingOf(BoundIn(sorted, bindings), d.name) == BindingOf(bindings, d.name)
    {
      assert d in multiset(declarations) && d in multiset(sorted);
      var j :| 0 <= j < |sorted| && sorted[j] == d;
      BoundInFinds(sorted, bindings, d.name);
    }
  }

  /**
   Binding succeeds exactly if every declaration has its binding or gets one that declares just it, and
   then every one is bound, in the order of priorities: applying cannot be refused.
   */
  lemma BindCompletes(declarations: seq<Declaration>, bindings: seq<Binding>, materialize: Materializer)
    requires Build(bindings, declarations).Ok?
    ensures var after := Bind(Build(bindings, declarations).value, materialize);
            && (after.Ok? <==> forall d | d in declarations :: Bindable(d, bindings, materialize))
            && (after.Ok? ==> after.value.declarations == declarations
                              && Declared(after.value.bindings) == SortBy(declarations, PriorityOf))
  {
    var before := Build(bindings, declarations).value;
    BuildKeepsBindings(declarations, bindings);
    forall d | d in declarations && IsBound(before.bindings, d) ensures BindingOf(before.bindings, d.name).value.declaration == d {
      OwnBinding(declarations, bindings, d);
    }
    BindEachExactly(declarations, before.bindings, materialize);
    var bound := BindEach(declarations, before.bindings, materialize);
    if |before.bindings| == |declarations| {
      AllBoundSorted(declarations, bindings);
    } else if bound.Ok? {
      BindEachDeclares(declarations, before.bindings, materialize);
      assert BindingsMatch(bound.value, declarations);
      forall i | 0 <= i < |declarations| ensures IsBound(bound.value, declarations[i]) {
        BindingOfFinds(bound.value, i);
      }
      AllBoundSorted(declarations, bound.value);
    }
  }

  lemma AllBoundSorted(declarations: seq<Declaration>, bindings: seq<Binding>)
    requires Build(bindings, declarations).Ok? && forall d | d in declarations :: IsBound(bindings, d)
    ensures Declared(Build(bindings, declarations).value.bindings) == SortBy(declarations, PriorityOf)
  {
    var sorted := SortBy(declarations, PriorityOf);
    SortSorts(declarations, PriorityOf);
    forall i | 0 <= i < |sorted| ensures sorted[i] in declarations && IsBound(bindings, sorted[i]) {
      var j := InPermutation(sorted, declarations, i);
    }
    BoundInDeclares(sorted, bindings, declarations);
    AllBound(sorted, bindings);
  }
}
