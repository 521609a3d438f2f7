/** The evaluator when the arguments of declaration calls are evaluated together (`extract.ts`, `call`): they
    share one set of active symbols, so between any two steps of one of them others may have added symbols to
    it or removed some, even its own. What the set holds at each membership test is therefore arbitrary here. */
module EvaluatorOverlap {
  import opened Common
  import opened StaticEvaluator

  /** Where in the evaluation a test is made: the positions taken on the way to it. */
  type Path = seq<nat>

  /** What the shared set holds when the test at a path is made. */
  type Seen = Path -> set<Symbol>

  // ---------------------------------------------------------------- the evaluator under interference

  /** Evaluation that enters at most `fuel` nested constants; a deeper one has not returned. Of several
      errors, one is reported. */
  function Try(env: Env, seen: Seen, path: Path, e: Expr, mode: Mode, fuel: nat): Result<Argument>
    decreases fuel, e, 2
  {
    if e.Wrapped? then Try(env, seen, path, e.inner, mode, fuel)
    else if mode.Handler? then HandlerOf(env, e)
    else match e
      case ArrayLiteral(elements, at) =>
        (match TryElements(env, seen, path, elements, 0, at, fuel)
         case Ok(items) => Ok(ValueArgument(Arr(BoxAll(items)), at))
         case Err(error) => Err(error))
      case ObjectLiteral(properties, at) =>
        (match TryProperties(env, seen, path, properties, 0, at, fuel)
         case Ok(fields) => Ok(ValueArgument(Obj(BoxFields(fields)), at))
         case Err(error) => Err(error))
      case Call(callee, arguments, at) =>
        if !callee.Declares? then Eval(env, {}, e, mode)
        else
          (match TryArguments(env, seen, path, arguments, callee.handlers, 0, fuel)
           case Ok(args) => Ok(DeclarationArgument(callee.exported, args, at))
           case Err(error) => Err(error))
      case Name(_, meaning, at) =>
        if meaning.Some? && meaning.value.MeansContract? then Ok(ContractArgument(meaning.value.contract, at))
        else
          (match Initializer(env, seen(path), e)
           case Ok(init) =>
             if fuel == 0 then Err(CyclicConstant) else Try(env, seen, path + [0], init, Declaration, fuel - 1)
           case Err(error) => Err(error))
      case _ => Eval(env, {}, e, mode)
  }

  function TryElement(env: Env, seen: Seen, path: Path, element: Element, at: Span, fuel: nat): Result<seq<Argument>>
    decreases fuel, element, 0
  {
    match element
    case Item(value) =>
      (match Try(env, seen, path, value, Declaration, fuel)
       case Ok(a) => Ok([a])
       case Err(error) => Err(error))
    case Spread(spread) =>
      (match Try(env, seen, path, spread, Declaration, fuel)
       case Ok(a) => SpreadItems(a, at)
       case Err(error) => Err(error))
  }

  function TryElements(env: Env, seen: Seen, path: Path, elements: seq<Element>, i: nat, at: Span, fuel: nat)
    : Result<seq<Argument>>
    decreases fuel, elements, 0
  {
    if elements == [] then Ok([])
    else match TryElement(env, seen, path + [i], elements[0], at, fuel)
      case Err(error) => Err(error)
      case Ok(head) =>
        match TryElements(env, seen, path, elements[1..], i + 1, at, fuel)
        case Err(error) => Err(error)
        case Ok(tail) => Ok(head + tail)
  }

  function TryArguments(env: Env, seen: Seen, path: Path, arguments: seq<Expr>, handlers: set<nat>, i: nat, fuel: nat)
    : Result<seq<Argument>>
    decreases fuel, arguments, 0
  {
    if arguments == [] then Ok([])
    else match Try(env, seen, path + [i], arguments[0], if i in handlers then Handler else Declaration, fuel)
      case Err(error) => Err(error)
      case Ok(head) =>
        match TryArguments(env, seen, path, arguments[1..], handlers, i + 1, fuel)
        case Err(error) => Err(error)
        case Ok(tail) => Ok([head] + tail)
  }

  function TryProperty(env: Env, seen: Seen, path: Path, property: Property, at: Span, fuel: nat)
    : Result<map<string, Argument>>
    decreases fuel, property, 0
  {
    match property
    case SpreadAssign(spread) =>
      (match Try(env, seen, path, spread, Declaration, fuel)
       case Ok(a) => RequiredObject(a, at)
       case Err(error) => Err(error))
    case Assign(key, value) =>
      if key.None? then Err(ComputedKey)
      else (match Try(env, seen, path, value, Declaration, fuel)
            case Ok(a) => Ok(map[key.value := a])
            case Err(error) => Err(error))
    case _ => EvalProperty(env, {}, property, {}, at)
  }

  function TryProperties(env: Env, seen: Seen, path: Path, properties: seq<Property>, i: nat, at: Span, fuel: nat)
    : Result<map<string, Argument>>
    decreases fuel, properties, 0
  {
    if properties == [] then Ok(map[])
    else match TryProperty(env, seen, path + [i], properties[0], at, fuel)
      case Err(error) => Err(error)
      case Ok(head) =>
        match TryProperties(env, seen, path, properties[1..], i + 1, at, fuel)
        case Err(error) => Err(error)
        case Ok(tail) => if head.Keys !! tail.Keys then Ok(head + tail) else Err(DuplicateKey)
  }

  // ---------------------------------------------------------------- the tests that are made

  datatype Test = Test(path: Path, symbol: Symbol)

  function Tests(env: Env, path: Path, e: Expr, mode: Mode, fuel: nat): set<Test>
    decreases fuel, e, 2
  {
    if e.Wrapped? then Tests(env, path, e.inner, mode, fuel)
    else if mode.Handler? then {}
    else match e
      case ArrayLiteral(elements, _) => ElementsTests(env, path, elements, 0, fuel)
      case ObjectLiteral(properties, _) => PropertiesTests(env, path, properties, 0, fuel)
      case Call(callee, arguments, _) =>
        if callee.Declares? then ArgumentsTests(env, path, arguments, callee.handlers, 0, fuel) else {}
      case Name(symbol, meaning, _) =>
        if meaning.Some? || symbol.None? || ConstInit(env, symbol.value).None? || fuel == 0 then {}
        else {Test(path, symbol.value)} + Tests(env, path + [0], ConstInit(env, symbol.value).value, Declaration, fuel - 1)
      case _ => {}
  }

  function ElementTests(env: Env, path: Path, element: Element, fuel: nat): set<Test>
    decreases fuel, element, 0
  {
    match element
    case Item(value) => Tests(env, path, value, Declaration, fuel)
    case Spread(spread) => Tests(env, path, spread, Declaration, fuel)
  }

  function ElementsTests(env: Env, path: Path, elements: seq<Element>, i: nat, fuel: nat): set<Test>
    decreases fuel, elements, 0
  {
    if elements == [] then {}
    else ElementTests(env, path + [i], elements[0], fuel) + ElementsTests(env, path, elements[1..], i + 1, fuel)
  }

  function ArgumentsTests(env: Env, path: Path, arguments: seq<Expr>, handlers: set<nat>, i: nat, fuel: nat): set<Test>
    decreases fuel, arguments, 0
  {
    if arguments == [] then {}
    else
      Tests(env, path + [i], arguments[0], if i in handlers then Handler else Declaration, fuel)
      + ArgumentsTests(env, path, arguments[1..], handlers, i + 1, fuel)
  }

  function PropertyTests(env: Env, path: Path, property: Property, fuel: nat): set<Test>
    decreases fuel, property, 0
  {
    match property
    case SpreadAssign(spread) => Tests(env, path, spread, Declaration, fuel)
    case Assign(_, value) => Tests(env, path, value, Declaration, fuel)
    case _ => {}
  }

  function PropertiesTests(env: Env, path: Path, properties: seq<Property>, i: nat, fuel: nat): set<Test>
    decreases fuel, properties, 0
  {
    if properties == [] then {}
    else PropertyTests(env, path + [i], properties[0], fuel) + PropertiesTests(env, path, properties[1..], i + 1, fuel)
  }

  /** No test finds its symbol in the set. */
  ghost predicate Clear(seen: Seen, tests: set<Test>) {
    forall t :: t in tests ==> t.symbol !in seen(t.path)
  }

  lemma ClearBoth(seen: Seen, a: set<Test>, b: set<Test>)
    ensures Clear(seen, a + b) <==> Clear(seen, a) && Clear(seen, b)
  {
  }

  // ---------------------------------------------------------------- what is returned, exactly

  /** An argument is returned if and only if there is a meaning and every test is clear, and it has that meaning. */
  ghost predicate Exact(r: Result<Argument>, d: Option<Value>, clear: bool) {
    && (r.Ok? <==> d.Some? && clear)
    && (r.Ok? ==> d == Some(Erase(r.value)))
  }

  ghost predicate ExactAll(r: Result<seq<Argument>>, d: Option<seq<Value>>, clear: bool) {
    && (r.Ok? <==> d.Some? && clear)
    && (r.Ok? ==> d == Some(EraseAll(r.value)))
  }

  ghost predicate ExactMap(r: Result<map<string, Argument>>, d: Option<map<string, Value>>, clear: bool) {
    && (r.Ok? <==> d.Some? && clear)
    && (r.Ok? ==> d == Some(EraseMap(r.value)))
  }

  lemma {:induction false} ElementExact(env: Env, seen: Seen, path: Path, element: Element, at: Span, fuel: nat)
    ensures ExactAll(TryElement(env, seen, path, element, at, fuel), DenoteElement(env, element, fuel),
                     Clear(seen, ElementTests(env, path, element, fuel)))
    decreases fuel, element, 0
  {
    match element
    case Item(value) =>
      OverlapExact(env, seen, path, value, Declaration, fuel);
      var r := Try(env, seen, path, value, Declaration, fuel);
      if r.Ok? { EraseOne(r.value, "", []); }
    case Spread(spread) =>
      OverlapExact(env, seen, path, spread, Declaration, fuel);
      var r := Try(env, seen, path, spread, Declaration, fuel);
      if r.Ok? { EraseSpread(r.value, at); }
  }

  lemma {:induction false} ElementsExact(env: Env, seen: Seen, path: Path, elements: seq<Element>, i: nat, at: Span, fuel: nat)
    ensures ExactAll(TryElements(env, seen, path, elements, i, at, fuel), DenoteElements(env, elements, fuel),
                     Clear(seen, ElementsTests(env, path, elements, i, fuel)))
    decreases fuel, elements, 0
  {
    if elements == [] {
      assert EraseAll([]) == [];
    } else {
      ElementExact(env, seen, path + [i], elements[0], at, fuel);
      ElementsExact(env, seen, path, elements[1..], i + 1, at, fuel);
      ClearBoth(seen, ElementTests(env, path + [i], elements[0], fuel), ElementsTests(env, path, elements[1..], i + 1, fuel));
      var head, tail := TryElement(env, seen, path + [i], elements[0], at, fuel), TryElements(env, seen, path, elements[1..], i + 1, at, fuel);
      if head.Ok? && tail.Ok? { EraseAllConcat(head.value, tail.value); }
    }
  }

  lemma {:induction false} ArgumentsExact(env: Env, seen: Seen, path: Path, arguments: seq<Expr>, handlers: set<nat>, i: nat, fuel: nat)
    ensures ExactAll(TryArguments(env, seen, path, arguments, handlers, i, fuel), DenoteArguments(env, arguments, handlers, i, fuel),
                     Clear(seen, ArgumentsTests(env, path, arguments, handlers, i, fuel)))
    decreases fuel, arguments, 0
  {
    if arguments == [] {
      assert EraseAll([]) == [];
    } else {
      var mode := if i in handlers then Handler else Declaration;
      OverlapExact(env, seen, path + [i], arguments[0], mode, fuel);
      ArgumentsExact(env, seen, path, arguments[1..], handlers, i + 1, fuel);
      ClearBoth(seen, Tests(env, path + [i], arguments[0], mode, fuel), ArgumentsTests(env, path, arguments[1..], handlers, i + 1, fuel));
      var head, tail := Try(env, seen, path + [i], arguments[0], mode, fuel), TryArguments(env, seen, path, arguments[1..], handlers, i + 1, fuel);
      if head.Ok? && tail.Ok? { EraseOne(head.value, "", tail.value); }
    }
  }

  lemma {:induction false} PropertyExact(env: Env, seen: Seen, path: Path, property: Property, at: Span, fuel: nat)
    ensures ExactMap(TryProperty(env, seen, path, property, at, fuel), DenoteProperty(env, property, {}, fuel),
                     Clear(seen, PropertyTests(env, path, property, fuel)))
    decreases fuel, property, 0
  {
    match property
    case SpreadAssign(spread) =>
      OverlapExact(env, seen, path, spread, Declaration, fuel);
      var r := Try(env, seen, path, spread, Declaration, fuel);
      if r.Ok? { EraseObject(r.value, at); }
    case Assign(key, value) =>
      OverlapExact(env, seen, path, value, Declaration, fuel);
      var r := Try(env, seen, path, value, Declaration, fuel);
      if key.Some? && r.Ok? { EraseOne(r.value, key.value, []); }
    case _ =>
  }

  lemma {:induction false} PropertiesExact(env: Env, seen: Seen, path: Path, properties: seq<Property>, i: nat, at: Span, fuel: nat)
    ensures ExactMap(TryProperties(env, seen, path, properties, i, at, fuel), DenoteProperties(env, properties, {}, fuel),
                     Clear(seen, PropertiesTests(env, path, properties, i, fuel)))
    decreases fuel, properties, 0
  {
    if properties == [] {
      assert EraseMap(map[]) == map[];
    } else {
      PropertyExact(env, seen, path + [i], properties[0], at, fuel);
      PropertiesExact(env, seen, path, properties[1..], i + 1, at, fuel);
      ClearBoth(seen, PropertyTests(env, path + [i], properties[0], fuel), PropertiesTests(env, path, properties[1..], i + 1, fuel));
      var head, tail := TryProperty(env, seen, path + [i], properties[0], at, fuel), TryProperties(env, seen, path, properties[1..], i + 1, at, fuel);
      if head.Ok? && tail.Ok? {
        EraseMapUnion(head.value, tail.value);
        assert EraseMap(head.value).Keys == head.value.Keys && EraseMap(tail.value).Keys == tail.value.Keys;
      }
    }
  }

  lemma {:induction false} CallExact(env: Env, seen: Seen, path: Path, e: Expr, fuel: nat)
    requires e.Call?
    ensures Exact(Try(env, seen, path, e, Declaration, fuel), Denote(env, e, Declaration, fuel),
                  Clear(seen, Tests(env, path, e, Declaration, fuel)))
    decreases fuel, e, 0
  {
    match e.callee
    case Cardinality(_, _, _) =>
      DependencyExact(e.callee, e.arguments, e.at);
    case Declares(exported, handlers) =>
      ArgumentsExact(env, seen, path, e.arguments, handlers, 0, fuel);
      var args := TryArguments(env, seen, path, e.arguments, handlers, 0, fuel);
      if args.Ok? { EraseDeclaration(exported, args.value, e.at); }
    case Uncallable =>
  }

  lemma {:induction false} NameExact(env: Env, seen: Seen, path: Path, e: Expr, fuel: nat)
    requires e.Name?
    ensures Exact(Try(env, seen, path, e, Declaration, fuel), Denote(env, e, Declaration, fuel),
                  Clear(seen, Tests(env, path, e, Declaration, fuel)))
    decreases fuel, e, 0
  {
    if e.meaning.None? && e.symbol.Some? && ConstInit(env, e.symbol.value).Some? && fuel > 0 {
      var init := ConstInit(env, e.symbol.value).value;
      OverlapExact(env, seen, path + [0], init, Declaration, fuel - 1);
      ClearBoth(seen, {Test(path, e.symbol.value)}, Tests(env, path + [0], init, Declaration, fuel - 1));
      assert Clear(seen, {Test(path, e.symbol.value)}) <==> e.symbol.value !in seen(path) by {
        assert Test(path, e.symbol.value) in {Test(path, e.symbol.value)};
      }
    }
  }

  /** Under any interference an argument is returned if and only if there is a meaning and no test finds its
      symbol in the shared set; and what is returned has that meaning. */
  lemma {:induction false} OverlapExact(env: Env, seen: Seen, path: Path, e: Expr, mode: Mode, fuel: nat)
    ensures Exact(Try(env, seen, path, e, mode, fuel), Denote(env, e, mode, fuel), Clear(seen, Tests(env, path, e, mode, fuel)))
    decreases fuel, e, 2
  {
    if e.Wrapped? {
      OverlapExact(env, seen, path, e.inner, mode, fuel);
    } else if mode.Declaration? {
      match e
      case ArrayLiteral(elements, at) =>
        ElementsExact(env, seen, path, elements, 0, at, fuel);
        var items := TryElements(env, seen, path, elements, 0, at, fuel);
        if items.Ok? { EraseArray(items.value, at); }
      case ObjectLiteral(properties, at) =>
        PropertiesExact(env, seen, path, properties, 0, at, fuel);
        var fields := TryProperties(env, seen, path, properties, 0, at, fuel);
        if fields.Ok? { EraseFields(fields.value, at); }
      case Call(_, _, _) => CallExact(env, seen, path, e, fuel);
      case Name(_, _, _) => NameExact(env, seen, path, e, fuel);
      case _ =>
    } else {
      HandlerExact(env, e);
    }
  }

  // ---------------------------------------------------------------- against the evaluator alone

  /** Whatever is returned under any interference is what the evaluator returns when it is alone. */
  lemma InterferenceOnlyRefuses(env: Env, seen: Seen, e: Expr, mode: Mode, fuel: nat)
    requires Try(env, seen, [], e, mode, fuel).Ok?
    ensures Eval(env, {}, e, mode).Ok?
    ensures Erase(Eval(env, {}, e, mode).value) == Erase(Try(env, seen, [], e, mode, fuel).value)
  {
    OverlapExact(env, seen, [], e, mode, fuel);
    var value := Erase(Try(env, seen, [], e, mode, fuel).value);
    EvaluatorIsExact(env, e, mode, value);
  }

  /** What the evaluator returns when it is alone is refused under interference if and only if some test finds
      its symbol in the shared set. */
  lemma RefusedExactly(env: Env, seen: Seen, e: Expr, mode: Mode)
    requires Eval(env, {}, e, mode).Ok?
    ensures Try(env, seen, [], e, mode, |env.Keys|).Err? <==> !Clear(seen, Tests(env, [], e, mode, |env.Keys|))
  {
    Sound(env, {}, e, mode);
    assert env.Keys - {} == env.Keys;
    OverlapExact(env, seen, [], e, mode, |env.Keys|);
  }

  // ---------------------------------------------------------------- two arguments with one constant

  /** What happens to the shared set, in order. */
  datatype Event = Tested(path: Path) | Added(symbol: Symbol) | Removed(symbol: Symbol)

  function Active(history: seq<Event>): set<Symbol> {
    if history == [] then {}
    else
      var last, before := history[|history| - 1], Active(history[..|history| - 1]);
      match last
      case Tested(_) => before
      case Added(symbol) => before + {symbol}
      case Removed(symbol) => before - {symbol}
  }

  /** The tests see what the history has put into the set by then. */
  ghost predicate Witnessed(seen: Seen, history: seq<Event>) {
    forall i :: 0 <= i < |history| && history[i].Tested? ==> seen(history[i].path) == Active(history[..i])
  }

  /** Two arguments that name one constant: alone the call is returned, whatever the constant is; when the
      second tests while the first is inside, it is refused. */
  lemma SharedConstantRefused(env: Env, name: Expr, exported: Export) returns (call: Expr, seen: Seen, history: seq<Event>)
    requires name.Name? && name.meaning.None? && Eval(env, {}, name, Declaration).Ok?
    ensures call == Call(Declares(exported, {}), [name, name], 0) && Eval(env, {}, call, Declaration).Ok?
    ensures history == [Tested([0]), Added(name.symbol.value), Tested([1])] && Witnessed(seen, history)
    ensures Try(env, seen, [], call, Declaration, |env.Keys|).Err?
  {
    var c := name.symbol.value;
    call := Call(Declares(exported, {}), [name, name], 0);
    history := [Tested([0]), Added(c), Tested([1])];
    seen := (path: Path) => if path == [1] then {c} else {};
    assert EvalArguments(env, {}, [name], {}, 1).Ok? by { assert [name][1..] == []; }
    assert [name, name][1..] == [name];
    FirstInside(seen, c);
    SecondTests(env, call, name, |env.Keys|);
    RefusedExactly(env, seen, call, Declaration);
  }

  lemma FirstInside(seen: Seen, c: Symbol)
    requires seen([0]) == {} && seen([1]) == {c}
    ensures Witnessed(seen, [Tested([0]), Added(c), Tested([1])])
  {
    var history := [Tested([0]), Added(c), Tested([1])];
    var inside := [Tested([0]), Added(c)];
    assert history[..0] == [] && history[..2] == inside && inside[..1] == [Tested([0])];
    assert [Tested([0])][..0] == [];
    assert Active([Tested([0])]) == {} && Active(inside) == {c};
  }

  lemma SecondTests(env: Env, call: Expr, name: Expr, fuel: nat)
    requires call.Call? && call.callee.Declares? && call.callee.handlers == {} && call.arguments == [name, name]
    requires name.Name? && name.meaning.None? && name.symbol.Some? && ConstInit(env, name.symbol.value).Some? && fuel > 0
    ensures Test([1], name.symbol.value) in Tests(env, [], call, Declaration, fuel)
  {
    var path: Path := [];
    assert path + [1] == [1] && [name, name][1..] == [name];
    assert Test([1], name.symbol.value) in Tests(env, [1], name, Declaration, fuel);
    assert Test([1], name.symbol.value) in ArgumentsTests(env, [], [name], {}, 1, fuel);
  }
}
