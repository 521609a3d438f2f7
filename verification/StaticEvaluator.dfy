/** The static declaration evaluator (`extract.ts`, `StaticEvaluator`): declarations are read off the syntax
    tree, following `const` references, without running the module. The TypeScript checker is a finite map
    from symbols to their declarations, and names carry what the checker resolved them to. */
module StaticEvaluator {
  import opened Common

  type Symbol = nat
  type Span = nat
  type Contract = nat
  type Export = nat

  datatype Result<T> = Ok(value: T) | Err(error: Error)

  datatype Error =
    | NotInSubset | NotLiteralValue | SpreadNotArray | NotObject | DuplicateKey
    | AccessorMember | MethodOutsideHandler | UnsupportedMember | ComputedKey
    | MustBeCalled | PropertyAccessNotSupported | UnsupportedCall | TooManyIds | IdNotString
    | Unresolved | CyclicConstant | NoStaticValue | MutableValue | NoInitializer | NotConst
    | HandlerUnresolved | HandlerNotConst | HandlerConstNotFunction | HandlerNotFunction | HandlerRequired

  // ---------------------------------------------------------------- syntax

  datatype Lit = Str(s: string) | Num(n: real) | Bool(b: bool) | Null

  datatype Mode = Declaration | Handler

  datatype Meaning = MeansContract(contract: Contract) | MeansExport

  datatype Callee =
    | Cardinality(contract: Contract, name: string, contractAt: Span)  // a contract's required, optional or many
    | Declares(exported: Export, handlers: set<nat>)
    | Uncallable

  datatype Expr =
    | Literal(lit: Lit, at: Span)
    | Negative(number: real, at: Span)
    | ArrayLiteral(elements: seq<Element>, at: Span)
    | ObjectLiteral(properties: seq<Property>, at: Span)
    | Call(callee: Callee, arguments: seq<Expr>, at: Span)
    | Name(symbol: Option<Symbol>, meaning: Option<Meaning>, at: Span)
    | PropertyAccess(meaning: Option<Meaning>, at: Span)
    | Function(at: Span)
    | Wrapped(inner: Expr)  // parentheses, as, satisfies, assertion, non-null
    | Other(at: Span)

  datatype Element = Item(value: Expr) | Spread(spread: Expr)

  /** A computed key is no key. */
  datatype Property =
    | Assign(key: Option<string>, value: Expr)
    | SpreadAssign(spread: Expr)
    | Method(key: Option<string>, at: Span)
    | Accessor
    | OtherMember

  datatype Binding = Const(init: Option<Expr>) | Mutable | FunctionDeclaration(at: Span) | OtherDeclaration

  type Env = map<Symbol, Binding>

  // ---------------------------------------------------------------- results

  /** What the evaluator returns: every value inside carries the span it came from. */
  datatype Argument =
    | ValueArgument(payload: Payload, at: Span)
    | DeclarationArgument(exported: Export, arguments: seq<Argument>, at: Span)
    | ContractArgument(contract: Contract, at: Span)
    | HandlerArgument(target: Span)

  datatype Payload = Prim(lit: Lit) | Arr(items: seq<Entry>) | Obj(fields: map<string, Entry>)

  /** An argument, or one of the bare strings of a dependency record. */
  datatype Entry = Boxed(argument: Argument) | Bare(lit: Lit)

  /** The same without spans and boxes. */
  datatype Value =
    | VLit(lit: Lit)
    | VArray(items: seq<Value>)
    | VObject(fields: map<string, Value>)
    | VDeclaration(exported: Export, arguments: seq<Value>)
    | VContract(contract: Contract)
    | VHandler(target: Span)

  function Erase(a: Argument): Value {
    match a
    case ValueArgument(payload, _) => ErasePayload(payload)
    case DeclarationArgument(e, arguments, _) =>
      VDeclaration(e, seq(|arguments|, i requires 0 <= i < |arguments| => Erase(arguments[i])))
    case ContractArgument(c, _) => VContract(c)
    case HandlerArgument(target) => VHandler(target)
  }

  function ErasePayload(p: Payload): Value {
    match p
    case Prim(lit) => VLit(lit)
    case Arr(items) => VArray(seq(|items|, i requires 0 <= i < |items| => EraseEntry(items[i])))
    case Obj(fields) => VObject(map k | k in fields :: EraseEntry(fields[k]))
  }

  function EraseEntry(e: Entry): Value {
    match e
    case Boxed(argument) => Erase(argument)
    case Bare(lit) => VLit(lit)
  }

  function EraseAll(s: seq<Argument>): (r: seq<Value>) {
    seq(|s|, i requires 0 <= i < |s| => Erase(s[i]))
  }

  function EraseMap(m: map<string, Argument>): map<string, Value> {
    map k | k in m :: Erase(m[k])
  }

  // ---------------------------------------------------------------- handlers, spreads, dependencies

  function ConstInit(env: Env, s: Symbol): Option<Expr> {
    if s in env && env[s].Const? then env[s].init else None
  }

  /** `handler`: a function, or a name of one. */
  function HandlerOf(env: Env, e: Expr): Result<Argument> {
    match e
    case Function(at) => Ok(HandlerArgument(at))
    case Name(symbol, _, _) =>
      if symbol.None? || symbol.value !in env then Err(HandlerUnresolved)
      else (match env[symbol.value]
            case Const(init) =>
              if init.Some? && init.value.Function? then Ok(HandlerArgument(init.value.at))
              else Err(HandlerConstNotFunction)
            case Mutable => Err(HandlerNotConst)
            case FunctionDeclaration(at) => Ok(HandlerArgument(at))
            case OtherDeclaration => Err(HandlerNotFunction))
    case _ => Err(HandlerRequired)
  }

  function BoxAll(items: seq<Argument>): seq<Entry> {
    seq(|items|, i requires 0 <= i < |items| => Boxed(items[i]))
  }

  function BoxFields(fields: map<string, Argument>): map<string, Entry> {
    map k | k in fields :: Boxed(fields[k])
  }

  function AsArgument(e: Entry, at: Span): Argument {
    match e
    case Boxed(argument) => argument
    case Bare(lit) => ValueArgument(Prim(lit), at)
  }

  /** The elements an array spread contributes. */
  function SpreadItems(a: Argument, at: Span): Result<seq<Argument>> {
    if !a.ValueArgument? then Err(NotLiteralValue)
    else if !a.payload.Arr? then Err(SpreadNotArray)
    else Ok(seq(|a.payload.items|, i requires 0 <= i < |a.payload.items| => AsArgument(a.payload.items[i], at)))
  }

  /** `requiredObject`. */
  function RequiredObject(a: Argument, at: Span): Result<map<string, Argument>> {
    if !a.ValueArgument? then Err(NotLiteralValue)
    else if !a.payload.Obj? then Err(NotObject)
    else Ok(map k | k in a.payload.fields :: AsArgument(a.payload.fields[k], at))
  }

  function Unwrap(e: Expr): Expr {
    if e.Wrapped? then Unwrap(e.inner) else e
  }

  function DependencyId(arguments: seq<Expr>): Result<Option<string>> {
    if |arguments| > 1 then Err(TooManyIds)
    else if arguments == [] then Ok(None)
    else
      var id := Unwrap(arguments[0]);
      if id.Literal? && id.lit.Str? then Ok(Some(id.lit.s)) else Err(IdNotString)
  }

  function DependencyRecord(callee: Callee, id: Option<string>): map<string, Entry>
    requires callee.Cardinality?
  {
    var name := if callee.name == "required" then "one" else callee.name;
    var kinded := map["kind" := Bare(Str("lenso.dependency"))]["cardinality" := Bare(Str(name))];
    var identified := if id.Some? then kinded["id" := Bare(Str(id.value))] else kinded;
    identified["contract" := Boxed(ContractArgument(callee.contract, callee.contractAt))]
  }

  // ---------------------------------------------------------------- the evaluator, as functions

  /** The constants that may still be entered. */
  ghost function Left(env: Env, active: set<Symbol>): nat { |env.Keys - active| }

  lemma EnterShrinks(env: Env, active: set<Symbol>, s: Symbol)
    requires s in env && s !in active
    ensures Left(env, active + {s}) == Left(env, active) - 1
  {
    assert env.Keys - (active + {s}) == (env.Keys - active) - {s};
  }

  /** The initializer a name stands for, if it may be entered. */
  function Initializer(env: Env, active: set<Symbol>, e: Expr): (r: Result<Expr>)
    requires e.Name?
    ensures r.Ok? <==> e.meaning.None? && e.symbol.Some? && e.symbol.value !in active && ConstInit(env, e.symbol.value).Some?
    ensures r.Ok? ==> r.value == ConstInit(env, e.symbol.value).value
    ensures r.Ok? ==> Left(env, active + {e.symbol.value}) == Left(env, active) - 1
  {
    if e.meaning.Some? then Err(MustBeCalled)
    else if e.symbol.None? then Err(Unresolved)
    else if e.symbol.value in active then Err(CyclicConstant)
    else if e.symbol.value !in env then Err(NoStaticValue)
    else match env[e.symbol.value]
      case Const(init) =>
        if init.None? then Err(NoInitializer) else EnterShrinks(env, active, e.symbol.value); Ok(init.value)
      case Mutable => Err(MutableValue)
      case _ => Err(NotConst)
  }

  function Eval(env: Env, active: set<Symbol>, e: Expr, mode: Mode): Result<Argument>
    decreases Left(env, active), e, 2
  {
    if e.Wrapped? then Eval(env, active, e.inner, mode)
    else if mode.Handler? then HandlerOf(env, e)
    else match e
      case Literal(lit, at) => Ok(ValueArgument(Prim(lit), at))
      case Negative(n, at) => Ok(ValueArgument(Prim(Num(-n)), at))
      case ArrayLiteral(elements, at) =>
        (match EvalElements(env, active, elements, at)
         case Ok(items) => Ok(ValueArgument(Arr(BoxAll(items)), at))
         case Err(error) => Err(error))
      case ObjectLiteral(properties, at) =>
        (match EvalProperties(env, active, properties, {}, map[], at)
         case Ok(fields) => Ok(ValueArgument(Obj(BoxFields(fields)), at))
         case Err(error) => Err(error))
      case Call(callee, arguments, at) =>
        (match callee
         case Cardinality(_, _, _) =>
           (match DependencyId(arguments)
            case Ok(id) => Ok(ValueArgument(Obj(DependencyRecord(callee, id)), at))
            case Err(error) => Err(error))
         case Declares(exported, handlers) =>
           (match EvalArguments(env, active, arguments, handlers, 0)
            case Ok(args) => Ok(DeclarationArgument(exported, args, at))
            case Err(error) => Err(error))
         case Uncallable => Err(UnsupportedCall))
      case Name(symbol, meaning, at) =>
        if meaning.Some? && meaning.value.MeansContract? then Ok(ContractArgument(meaning.value.contract, at))
        else
          (match Initializer(env, active, e)
           case Ok(init) => Eval(env, active + {symbol.value}, init, Declaration)
           case Err(error) => Err(error))
      case PropertyAccess(meaning, at) =>
        if meaning.Some? && meaning.value.MeansContract? then Ok(ContractArgument(meaning.value.contract, at))
        else if meaning.Some? then Err(MustBeCalled)
        else Err(PropertyAccessNotSupported)
      case _ => Err(NotInSubset)
  }

  function EvalElements(env: Env, active: set<Symbol>, elements: seq<Element>, at: Span): Result<seq<Argument>>
    decreases Left(env, active), elements, 0
  {
    if elements == [] then Ok([])
    else match EvalElement(env, active, elements[0], at)
      case Err(error) => Err(error)
      case Ok(head) =>
        match EvalElements(env, active, elements[1..], at)
        case Err(error) => Err(error)
        case Ok(tail) => Ok(head + tail)
  }

  function EvalElement(env: Env, active: set<Symbol>, element: Element, at: Span): Result<seq<Argument>>
    decreases Left(env, active), element, 0
  {
    match element
    case Item(value) =>
      (match Eval(env, active, value, Declaration)
       case Ok(a) => Ok([a])
       case Err(error) => Err(error))
    case Spread(spread) =>
      (match Eval(env, active, spread, Declaration)
       case Ok(a) => SpreadItems(a, at)
       case Err(error) => Err(error))
  }

  function EvalArguments(env: Env, active: set<Symbol>, arguments: seq<Expr>, handlers: set<nat>, index: nat)
    : Result<seq<Argument>>
    decreases Left(env, active), arguments, 0
  {
    if arguments == [] then Ok([])
    else match Eval(env, active, arguments[0], if index in handlers then Handler else Declaration)
      case Err(error) => Err(error)
      case Ok(head) =>
        match EvalArguments(env, active, arguments[1..], handlers, index + 1)
        case Err(error) => Err(error)
        case Ok(tail) => Ok([head] + tail)
  }

  /** The entries one property contributes. */
  function EvalProperty(env: Env, active: set<Symbol>, property: Property, handlers: set<string>, at: Span)
    : Result<map<string, Argument>>
    decreases Left(env, active), property, 0
  {
    match property
    case SpreadAssign(spread) =>
      (match Eval(env, active, spread, Declaration)
       case Ok(a) => RequiredObject(a, at)
       case Err(error) => Err(error))
    case Accessor => Err(AccessorMember)
    case Method(key, where) =>
      if key.None? then Err(ComputedKey)
      else if key.value !in handlers then Err(MethodOutsideHandler)
      else Ok(map[key.value := HandlerArgument(where)])
    case OtherMember => Err(UnsupportedMember)
    case Assign(key, value) =>
      if key.None? then Err(ComputedKey)
      else (match Eval(env, active, value, if key.value in handlers then Handler else Declaration)
            case Ok(a) => Ok(map[key.value := a])
            case Err(error) => Err(error))
  }

  function EvalProperties(env: Env, active: set<Symbol>, properties: seq<Property>, handlers: set<string>,
                          entries: map<string, Argument>, at: Span): Result<map<string, Argument>>
    decreases Left(env, active), properties, 0
  {
    if properties == [] then Ok(entries)
    else match EvalProperty(env, active, properties[0], handlers, at)
      case Err(error) => Err(error)
      case Ok(more) =>
        if more.Keys !! entries.Keys
        then EvalProperties(env, active, properties[1..], handlers, entries + more, at)
        else Err(DuplicateKey)
  }

  /** `object`: an object literal with handler positions, or anything that evaluates to an object. */
  function EvalObject(env: Env, active: set<Symbol>, e: Expr, handlers: set<string>, at: Span)
    : Result<map<string, Argument>>
  {
    if Unwrap(e).ObjectLiteral?
    then EvalProperties(env, active, Unwrap(e).properties, handlers, map[], Unwrap(e).at)
    else match Eval(env, active, e, Declaration)
      case Ok(a) => RequiredObject(a, at)
      case Err(error) => Err(error)
  }

  // ---------------------------------------------------------------- the denotation

  /** What an expression means, allowing `fuel` nested constants: nothing, or one value. It knows neither
      active symbols nor spans nor the order of evaluation. */
  function Denote(env: Env, e: Expr, mode: Mode, fuel: nat): Option<Value>
    decreases fuel, e, 2
  {
    if e.Wrapped? then Denote(env, e.inner, mode, fuel)
    else if mode.Handler? then DenoteHandler(env, e)
    else match e
      case Literal(lit, _) => Some(VLit(lit))
      case Negative(n, _) => Some(VLit(Num(-n)))
      case ArrayLiteral(elements, _) =>
        (match DenoteElements(env, elements, fuel)
         case Some(items) => Some(VArray(items))
         case None => None)
      case ObjectLiteral(properties, _) =>
        (match DenoteProperties(env, properties, {}, fuel)
         case Some(fields) => Some(VObject(fields))
         case None => None)
      case Call(callee, arguments, _) =>
        (match callee
         case Cardinality(_, _, _) => DenoteDependency(callee, arguments)
         case Declares(exported, handlers) =>
           (match DenoteArguments(env, arguments, handlers, 0, fuel)
            case Some(args) => Some(VDeclaration(exported, args))
            case None => None)
         case Uncallable => None)
      case Name(symbol, meaning, _) =>
        if meaning.Some? then DenoteMeaning(meaning.value)
        else if symbol.None? || ConstInit(env, symbol.value).None? || fuel == 0 then None
        else Denote(env, ConstInit(env, symbol.value).value, Declaration, fuel - 1)
      case PropertyAccess(meaning, _) => if meaning.Some? then DenoteMeaning(meaning.value) else None
      case _ => None
  }

  function DenoteMeaning(m: Meaning): Option<Value> {
    if m.MeansContract? then Some(VContract(m.contract)) else None
  }

  /** A function means the place where it is written, under whatever name. */
  function DenoteHandler(env: Env, e: Expr): Option<Value> {
    if e.Function? then Some(VHandler(e.at))
    else if e.Name? && e.symbol.Some? then NamedFunction(env, e.symbol.value)
    else None
  }

  function NamedFunction(env: Env, s: Symbol): Option<Value> {
    var init := ConstInit(env, s);
    if init.Some? && init.value.Function? then Some(VHandler(init.value.at))
    else if s in env && env[s].FunctionDeclaration? then Some(VHandler(env[s].at))
    else None
  }

  function DenoteDependency(callee: Callee, arguments: seq<Expr>): Option<Value>
    requires callee.Cardinality?
  {
    if arguments == [] then Some(VObject(DependencyValue(callee, None)))
    else if |arguments| == 1 && StringText(arguments[0]).Some?
    then Some(VObject(DependencyValue(callee, StringText(arguments[0]))))
    else None
  }

  /** The text of a string literal, bare or wrapped. */
  function StringText(e: Expr): Option<string> {
    match e
    case Literal(Str(text), _) => Some(text)
    case Wrapped(inner) => StringText(inner)
    case _ => None
  }

  function DependencyValue(callee: Callee, id: Option<string>): map<string, Value>
    requires callee.Cardinality?
  {
    var name := if callee.name == "required" then "one" else callee.name;
    var kinded := map["kind" := VLit(Str("lenso.dependency"))]["cardinality" := VLit(Str(name))];
    var identified := if id.Some? then kinded["id" := VLit(Str(id.value))] else kinded;
    identified["contract" := VContract(callee.contract)]
  }

  /** A spread stands for the elements of its array, in their place. */
  function DenoteElement(env: Env, element: Element, fuel: nat): Option<seq<Value>>
    decreases fuel, element, 0
  {
    match element
    case Item(value) =>
      (match Denote(env, value, Declaration, fuel)
       case Some(v) => Some([v])
       case None => None)
    case Spread(spread) =>
      (match Denote(env, spread, Declaration, fuel)
       case Some(v) => if v.VArray? then Some(v.items) else None
       case None => None)
  }

  function DenoteElements(env: Env, elements: seq<Element>, fuel: nat): Option<seq<Value>>
    decreases fuel, elements, 0
  {
    if elements == [] then Some([])
    else match DenoteElement(env, elements[0], fuel)
      case None => None
      case Some(head) =>
        match DenoteElements(env, elements[1..], fuel)
        case None => None
        case Some(tail) => Some(head + tail)
  }

  function DenoteArguments(env: Env, arguments: seq<Expr>, handlers: set<nat>, index: nat, fuel: nat)
    : Option<seq<Value>>
    decreases fuel, arguments, 0
  {
    if arguments == [] then Some([])
    else match Denote(env, arguments[0], if index in handlers then Handler else Declaration, fuel)
      case None => None
      case Some(head) =>
        match DenoteArguments(env, arguments[1..], handlers, index + 1, fuel)
        case None => None
        case Some(tail) => Some([head] + tail)
  }

  function DenoteProperty(env: Env, property: Property, handlers: set<string>, fuel: nat): Option<map<string, Value>>
    decreases fuel, property, 0
  {
    match property
    case SpreadAssign(spread) =>
      (match Denote(env, spread, Declaration, fuel)
       case Some(v) => if v.VObject? then Some(v.fields) else None
       case None => None)
    case Method(key, where) =>
      if key.Some? && key.value in handlers then Some(map[key.value := VHandler(where)]) else None
    case Assign(key, value) =>
      if key.None? then None
      else (match Denote(env, value, if key.value in handlers then Handler else Declaration, fuel)
            case Some(v) => Some(map[key.value := v])
            case None => None)
    case _ => None
  }

  /** The union of what the properties contribute, if no two of them share a key. */
  function DenoteProperties(env: Env, properties: seq<Property>, handlers: set<string>, fuel: nat)
    : Option<map<string, Value>>
    decreases fuel, properties, 0
  {
    if properties == [] then Some(map[])
    else match DenoteProperty(env, properties[0], handlers, fuel)
      case None => None
      case Some(head) =>
        match DenoteProperties(env, properties[1..], handlers, fuel)
        case None => None
        case Some(tail) => if head.Keys !! tail.Keys then Some(head + tail) else None
  }

  // ---------------------------------------------------------------- erasure

  lemma ErasePlain(e: Entry, at: Span)
    ensures Erase(AsArgument(e, at)) == EraseEntry(e)
  {
    if e.Bare? { assert ErasePayload(Prim(e.lit)) == VLit(e.lit); }
  }

  lemma EraseSpread(a: Argument, at: Span)
    ensures SpreadItems(a, at).Ok? <==> Erase(a).VArray?
    ensures SpreadItems(a, at).Ok? ==> EraseAll(SpreadItems(a, at).value) == Erase(a).items
  {
    if SpreadItems(a, at).Ok? {
      var items := a.payload.items;
      assert Erase(a) == ErasePayload(a.payload);
      forall i | 0 <= i < |items| ensures Erase(AsArgument(items[i], at)) == EraseEntry(items[i]) {
        ErasePlain(items[i], at);
      }
    }
  }

  lemma EraseObject(a: Argument, at: Span)
    ensures RequiredObject(a, at).Ok? <==> Erase(a).VObject?
    ensures RequiredObject(a, at).Ok? ==> EraseMap(RequiredObject(a, at).value) == Erase(a).fields
  {
    if RequiredObject(a, at).Ok? {
      var fields := a.payload.fields;
      assert Erase(a) == ErasePayload(a.payload);
      forall k | k in fields ensures Erase(AsArgument(fields[k], at)) == EraseEntry(fields[k]) {
        ErasePlain(fields[k], at);
      }
    }
  }

  lemma EraseArray(items: seq<Argument>, at: Span)
    ensures Erase(ValueArgument(Arr(BoxAll(items)), at)) == VArray(EraseAll(items))
  {
    var boxed := BoxAll(items);
    assert Erase(ValueArgument(Arr(boxed), at)) == ErasePayload(Arr(boxed));
    forall i | 0 <= i < |items| ensures EraseEntry(boxed[i]) == Erase(items[i]) {}
    assert seq(|boxed|, i requires 0 <= i < |boxed| => EraseEntry(boxed[i])) == EraseAll(items);
  }

  lemma EraseFields(fields: map<string, Argument>, at: Span)
    ensures Erase(ValueArgument(Obj(BoxFields(fields)), at)) == VObject(EraseMap(fields))
  {
    var boxed := BoxFields(fields);
    assert Erase(ValueArgument(Obj(boxed), at)) == ErasePayload(Obj(boxed));
    assert (map k | k in boxed :: EraseEntry(boxed[k])) == EraseMap(fields);
  }

  function EraseEntries(fields: map<string, Entry>): map<string, Value> {
    map k | k in fields :: EraseEntry(fields[k])
  }

  lemma EraseUpdate(fields: map<string, Entry>, key: string, e: Entry)
    ensures EraseEntries(fields[key := e]) == EraseEntries(fields)[key := EraseEntry(e)]
    ensures EraseEntries(map[key := e]) == map[key := EraseEntry(e)]
  {
  }

  lemma EraseObj(fields: map<string, Entry>, at: Span)
    ensures Erase(ValueArgument(Obj(fields), at)) == VObject(EraseEntries(fields))
  {
    assert Erase(ValueArgument(Obj(fields), at)) == ErasePayload(Obj(fields));
  }

  /** The record of `DependencyRecord`, for any keys and strings. */
  lemma EraseKeyed(k1: string, s1: string, k2: string, s2: string, k3: string, s3: Option<string>,
                   k4: string, contract: Contract, at: Span)
    ensures var named := map[k1 := Bare(Str(s1))][k2 := Bare(Str(s2))];
            var identified := if s3.Some? then named[k3 := Bare(Str(s3.value))] else named;
            var vnamed := map[k1 := VLit(Str(s1))][k2 := VLit(Str(s2))];
            var videntified := if s3.Some? then vnamed[k3 := VLit(Str(s3.value))] else vnamed;
            EraseEntries(identified[k4 := Boxed(ContractArgument(contract, at))]) == videntified[k4 := VContract(contract)]
  {
    var kinded := map[k1 := Bare(Str(s1))];
    var named := kinded[k2 := Bare(Str(s2))];
    var identified := if s3.Some? then named[k3 := Bare(Str(s3.value))] else named;
    var boxed := Boxed(ContractArgument(contract, at));
    EraseUpdate(map[], k1, Bare(Str(s1)));
    EraseUpdate(kinded, k2, Bare(Str(s2)));
    if s3.Some? { EraseUpdate(named, k3, Bare(Str(s3.value))); }
    EraseUpdate(identified, k4, boxed);
    assert EraseEntry(boxed) == Erase(boxed.argument) == VContract(contract);
  }

  lemma EraseRecord(callee: Callee, id: Option<string>, at: Span)
    requires callee.Cardinality?
    ensures Erase(ValueArgument(Obj(DependencyRecord(callee, id)), at)) == VObject(DependencyValue(callee, id))
  {
    var name := if callee.name == "required" then "one" else callee.name;
    EraseKeyed("kind", "lenso.dependency", "cardinality", name, "id", id, "contract", callee.contract, callee.contractAt);
    EraseObj(DependencyRecord(callee, id), at);
  }

  lemma {:induction false} UnwrapText(e: Expr)
    ensures StringText(e) == if Unwrap(e).Literal? && Unwrap(e).lit.Str? then Some(Unwrap(e).lit.s) else None
  {
    if e.Wrapped? { UnwrapText(e.inner); }
  }

  /** The id of a dependency: none without an argument, the text of one string literal, otherwise an error. */
  lemma DependencyExact(callee: Callee, arguments: seq<Expr>, at: Span)
    requires callee.Cardinality?
    ensures DependencyId(arguments).Ok? <==> DenoteDependency(callee, arguments).Some?
    ensures DependencyId(arguments).Ok? ==>
              DenoteDependency(callee, arguments)
              == Some(Erase(ValueArgument(Obj(DependencyRecord(callee, DependencyId(arguments).value)), at)))
  {
    if |arguments| == 1 { UnwrapText(arguments[0]); }
    if DependencyId(arguments).Ok? { EraseRecord(callee, DependencyId(arguments).value, at); }
  }

  lemma HandlerExact(env: Env, e: Expr)
    ensures HandlerOf(env, e).Ok? <==> DenoteHandler(env, e).Some?
    ensures HandlerOf(env, e).Ok? ==> DenoteHandler(env, e) == Some(Erase(HandlerOf(env, e).value))
  {
  }

  // ---------------------------------------------------------------- what is returned is what is meant

  lemma EraseAllConcat(a: seq<Argument>, b: seq<Argument>)
    ensures EraseAll(a + b) == EraseAll(a) + EraseAll(b)
  {
  }

  lemma EraseMapUnion(a: map<string, Argument>, b: map<string, Argument>)
    ensures EraseMap(a + b) == EraseMap(a) + EraseMap(b)
  {
  }

  lemma EraseOne(a: Argument, key: string, rest: seq<Argument>)
    ensures EraseAll([a]) == [Erase(a)] && EraseAll([]) == []
    ensures EraseAll([a] + rest) == [Erase(a)] + EraseAll(rest)
    ensures EraseMap(map[key := a]) == map[key := Erase(a)]
  {
  }

  /** Entries, one property's and the remaining ones', joined in either order of bracketing. */
  lemma JoinEntries(entries: map<string, Argument>, more: map<string, Argument>, tail: map<string, Value>)
    requires more.Keys !! entries.Keys && tail.Keys !! (entries + more).Keys
    ensures var head := EraseMap(more);
            && head.Keys !! tail.Keys && (head + tail).Keys !! entries.Keys
            && EraseMap(entries + more) + tail == EraseMap(entries) + (head + tail)
  {
    EraseMapUnion(entries, more);
    assert EraseMap(more).Keys == more.Keys;
    assert forall k :: k in tail ==> k !in entries && k !in more by {
      forall k | k in tail ensures k !in entries && k !in more { assert k in tail.Keys && k !in (entries + more).Keys; }
    }
  }

  lemma EraseDeclaration(exported: Export, args: seq<Argument>, at: Span)
    ensures Erase(DeclarationArgument(exported, args, at)) == VDeclaration(exported, EraseAll(args))
  {
  }

  lemma {:induction false} SoundElement(env: Env, active: set<Symbol>, element: Element, at: Span)
    requires EvalElement(env, active, element, at).Ok?
    ensures DenoteElement(env, element, Left(env, active)) == Some(EraseAll(EvalElement(env, active, element, at).value))
    decreases Left(env, active), element, 0
  {
    match element
    case Item(value) =>
      Sound(env, active, value, Declaration);
      EraseOne(Eval(env, active, value, Declaration).value, "", []);
    case Spread(spread) =>
      Sound(env, active, spread, Declaration);
      EraseSpread(Eval(env, active, spread, Declaration).value, at);
  }

  lemma {:induction false} SoundElements(env: Env, active: set<Symbol>, elements: seq<Element>, at: Span)
    requires EvalElements(env, active, elements, at).Ok?
    ensures DenoteElements(env, elements, Left(env, active)) == Some(EraseAll(EvalElements(env, active, elements, at).value))
    decreases Left(env, active), elements, 0
  {
    if elements == [] {
      assert EraseAll([]) == [];
    } else {
      SoundElement(env, active, elements[0], at);
      SoundElements(env, active, elements[1..], at);
      EraseAllConcat(EvalElement(env, active, elements[0], at).value, EvalElements(env, active, elements[1..], at).value);
    }
  }

  lemma {:induction false} SoundArguments(env: Env, active: set<Symbol>, arguments: seq<Expr>, handlers: set<nat>, index: nat)
    requires EvalArguments(env, active, arguments, handlers, index).Ok?
    ensures DenoteArguments(env, arguments, handlers, index, Left(env, active)) ==
            Some(EraseAll(EvalArguments(env, active, arguments, handlers, index).value))
    decreases Left(env, active), arguments, 0
  {
    if arguments == [] {
      assert EraseAll([]) == [];
    } else {
      var mode := if index in handlers then Handler else Declaration;
      Sound(env, active, arguments[0], mode);
      SoundArguments(env, active, arguments[1..], handlers, index + 1);
      EraseOne(Eval(env, active, arguments[0], mode).value, "", EvalArguments(env, active, arguments[1..], handlers, index + 1).value);
    }
  }

  lemma {:induction false} SoundProperty(env: Env, active: set<Symbol>, property: Property, handlers: set<string>, at: Span)
    requires EvalProperty(env, active, property, handlers, at).Ok?
    ensures DenoteProperty(env, property, handlers, Left(env, active)) ==
            Some(EraseMap(EvalProperty(env, active, property, handlers, at).value))
    decreases Left(env, active), property, 0
  {
    match property
    case SpreadAssign(spread) =>
      Sound(env, active, spread, Declaration);
      EraseObject(Eval(env, active, spread, Declaration).value, at);
    case Assign(key, value) =>
      var mode := if key.value in handlers then Handler else Declaration;
      Sound(env, active, value, mode);
      EraseOne(Eval(env, active, value, mode).value, key.value, []);
    case Method(key, where) => EraseOne(HandlerArgument(where), key.value, []);
    case _ =>
  }

  /** The entries so far and what the remaining properties mean are disjoint, and their union is the result. */
  ghost predicate Covers(result: map<string, Argument>, entries: map<string, Argument>, meant: map<string, Value>) {
    meant.Keys !! entries.Keys && EraseMap(result) == EraseMap(entries) + meant
  }

  lemma JoinCovers(result: map<string, Argument>, entries: map<string, Argument>, more: map<string, Argument>,
                   tail: map<string, Value>)
    requires more.Keys !! entries.Keys && Covers(result, entries + more, tail)
    ensures EraseMap(more).Keys !! tail.Keys && Covers(result, entries, EraseMap(more) + tail)
  {
    JoinEntries(entries, more, tail);
  }

  lemma {:induction false} EvalStep(env: Env, active: set<Symbol>, properties: seq<Property>, handlers: set<string>,
                                    entries: map<string, Argument>, at: Span)
    requires properties != [] && EvalProperties(env, active, properties, handlers, entries, at).Ok?
    ensures var more := EvalProperty(env, active, properties[0], handlers, at);
            && more.Ok? && more.value.Keys !! entries.Keys
            && EvalProperties(env, active, properties[1..], handlers, entries + more.value, at)
               == EvalProperties(env, active, properties, handlers, entries, at)
  {
  }

  lemma {:induction false} DenoteStep(env: Env, properties: seq<Property>, handlers: set<string>, fuel: nat)
    requires properties != [] && DenoteProperty(env, properties[0], handlers, fuel).Some?
    requires DenoteProperties(env, properties[1..], handlers, fuel).Some?
    ensures var head := DenoteProperty(env, properties[0], handlers, fuel).value;
            var tail := DenoteProperties(env, properties[1..], handlers, fuel).value;
            DenoteProperties(env, properties, handlers, fuel) == if head.Keys !! tail.Keys then Some(head + tail) else None
  {
  }

  lemma NothingLeft(entries: map<string, Argument>)
    ensures Covers(entries, entries, map[])
  {
    assert EraseMap(entries) + map[] == EraseMap(entries);
  }

  lemma {:induction false} SoundProperties(env: Env, active: set<Symbol>, properties: seq<Property>, handlers: set<string>,
                                           entries: map<string, Argument>, at: Span)
    requires EvalProperties(env, active, properties, handlers, entries, at).Ok?
    ensures DenoteProperties(env, properties, handlers, Left(env, active)).Some?
    ensures Covers(EvalProperties(env, active, properties, handlers, entries, at).value, entries,
                   DenoteProperties(env, properties, handlers, Left(env, active)).value)
    decreases Left(env, active), properties, 0
  {
    if properties == [] {
      NothingLeft(entries);
    } else {
      EvalStep(env, active, properties, handlers, entries, at);
      SoundProperty(env, active, properties[0], handlers, at);
      var more := EvalProperty(env, active, properties[0], handlers, at).value;
      SoundProperties(env, active, properties[1..], handlers, entries + more, at);
      DenoteStep(env, properties, handlers, Left(env, active));
      JoinCovers(EvalProperties(env, active, properties, handlers, entries, at).value, entries, more,
                 DenoteProperties(env, properties[1..], handlers, Left(env, active)).value);
    }
  }

  ghost predicate Agrees(r: Result<Argument>, d: Option<Value>) {
    r.Ok? ==> d == Some(Erase(r.value))
  }

  lemma {:induction false} SoundCall(env: Env, active: set<Symbol>, e: Expr)
    requires e.Call?
    ensures Agrees(Eval(env, active, e, Declaration), Denote(env, e, Declaration, Left(env, active)))
    decreases Left(env, active), e, 0
  {
    match e.callee
    case Cardinality(_, _, _) =>
      DependencyExact(e.callee, e.arguments, e.at);
    case Declares(exported, handlers) =>
      var args := EvalArguments(env, active, e.arguments, handlers, 0);
      if args.Ok? {
        SoundArguments(env, active, e.arguments, handlers, 0);
        EraseDeclaration(exported, args.value, e.at);
      }
    case Uncallable =>
  }

  lemma {:induction false} SoundArray(env: Env, active: set<Symbol>, e: Expr)
    requires e.ArrayLiteral?
    ensures Agrees(Eval(env, active, e, Declaration), Denote(env, e, Declaration, Left(env, active)))
    decreases Left(env, active), e, 0
  {
    var items := EvalElements(env, active, e.elements, e.at);
    if items.Ok? {
      SoundElements(env, active, e.elements, e.at);
      EraseArray(items.value, e.at);
    }
  }

  lemma NothingSoFar(m: map<string, Value>)
    ensures EraseMap(map[]) + m == m
  {
  }

  /** An object literal's fields mean what its properties mean. */
  lemma {:induction false} SoundFields(env: Env, active: set<Symbol>, properties: seq<Property>, handlers: set<string>, at: Span)
    requires EvalProperties(env, active, properties, handlers, map[], at).Ok?
    ensures DenoteProperties(env, properties, handlers, Left(env, active)) ==
            Some(EraseMap(EvalProperties(env, active, properties, handlers, map[], at).value))
    decreases Left(env, active), properties, 1
  {
    SoundProperties(env, active, properties, handlers, map[], at);
    NothingSoFar(DenoteProperties(env, properties, handlers, Left(env, active)).value);
  }

  lemma {:induction false} SoundObject(env: Env, active: set<Symbol>, e: Expr)
    requires e.ObjectLiteral?
    ensures Agrees(Eval(env, active, e, Declaration), Denote(env, e, Declaration, Left(env, active)))
    decreases Left(env, active), e, 0
  {
    var fields := EvalProperties(env, active, e.properties, {}, map[], e.at);
    if fields.Ok? {
      SoundFields(env, active, e.properties, {}, e.at);
      EraseFields(fields.value, e.at);
    }
  }

  /** A name that may be entered is evaluated, and means, what its initializer is and does. */
  lemma {:induction false} NameStep(env: Env, active: set<Symbol>, e: Expr)
    requires e.Name? && Initializer(env, active, e).Ok?
    ensures var init, inner := Initializer(env, active, e).value, active + {e.symbol.value};
            && Eval(env, active, e, Declaration) == Eval(env, inner, init, Declaration)
            && Denote(env, e, Declaration, Left(env, active)) == Denote(env, init, Declaration, Left(env, inner))
  {
  }

  lemma {:induction false} SoundName(env: Env, active: set<Symbol>, e: Expr)
    requires e.Name?
    ensures Agrees(Eval(env, active, e, Declaration), Denote(env, e, Declaration, Left(env, active)))
    decreases Left(env, active), e, 0
  {
    if Initializer(env, active, e).Ok? {
      NameStep(env, active, e);
      Sound(env, active + {e.symbol.value}, Initializer(env, active, e).value, Declaration);
    }
  }

  /** Whenever the evaluator returns, its result without spans is what the expression means. */
  lemma {:induction false} Sound(env: Env, active: set<Symbol>, e: Expr, mode: Mode)
    ensures Agrees(Eval(env, active, e, mode), Denote(env, e, mode, Left(env, active)))
    decreases Left(env, active), e, 2
  {
    if e.Wrapped? {
      Sound(env, active, e.inner, mode);
    } else if mode.Declaration? {
      match e
      case Literal(lit, at) => assert ErasePayload(Prim(lit)) == VLit(lit);
      case Negative(n, at) => assert ErasePayload(Prim(Num(-n))) == VLit(Num(-n));
      case ArrayLiteral(_, _) => SoundArray(env, active, e);
      case ObjectLiteral(_, _) => SoundObject(env, active, e);
      case Call(_, _, _) => SoundCall(env, active, e);
      case Name(_, _, _) => SoundName(env, active, e);
      case _ =>
    } else {
      HandlerExact(env, e);
    }
  }

  // ---------------------------------------------------------------- more fuel never changes a meaning

  ghost predicate Grows<T>(less: Option<T>, more: Option<T>) { less.Some? ==> more == less }

  lemma {:induction false} MoreElement(env: Env, element: Element, n: nat, m: nat)
    requires n <= m
    ensures Grows(DenoteElement(env, element, n), DenoteElement(env, element, m))
    decreases n, element, 0
  {
    match element
    case Item(value) => More(env, value, Declaration, n, m);
    case Spread(spread) => More(env, spread, Declaration, n, m);
  }

  lemma {:induction false} MoreElements(env: Env, elements: seq<Element>, n: nat, m: nat)
    requires n <= m
    ensures Grows(DenoteElements(env, elements, n), DenoteElements(env, elements, m))
    decreases n, elements, 0
  {
    if elements != [] {
      MoreElement(env, elements[0], n, m);
      MoreElements(env, elements[1..], n, m);
    }
  }

  lemma {:induction false} MoreArguments(env: Env, arguments: seq<Expr>, handlers: set<nat>, index: nat, n: nat, m: nat)
    requires n <= m
    ensures Grows(DenoteArguments(env, arguments, handlers, index, n), DenoteArguments(env, arguments, handlers, index, m))
    decreases n, arguments, 0
  {
    if arguments != [] {
      More(env, arguments[0], if index in handlers then Handler else Declaration, n, m);
      MoreArguments(env, arguments[1..], handlers, index + 1, n, m);
    }
  }

  lemma {:induction false} MoreProperty(env: Env, property: Property, handlers: set<string>, n: nat, m: nat)
    requires n <= m
    ensures Grows(DenoteProperty(env, property, handlers, n), DenoteProperty(env, property, handlers, m))
    decreases n, property, 0
  {
    match property
    case SpreadAssign(spread) => More(env, spread, Declaration, n, m);
    case Assign(key, value) =>
      if key.Some? { More(env, value, if key.value in handlers then Handler else Declaration, n, m); }
    case _ =>
  }

  lemma {:induction false} MoreProperties(env: Env, properties: seq<Property>, handlers: set<string>, n: nat, m: nat)
    requires n <= m
    ensures Grows(DenoteProperties(env, properties, handlers, n), DenoteProperties(env, properties, handlers, m))
    decreases n, properties, 0
  {
    if properties != [] {
      MoreProperty(env, properties[0], handlers, n, m);
      MoreProperties(env, properties[1..], handlers, n, m);
    }
  }

  lemma {:induction false} More(env: Env, e: Expr, mode: Mode, n: nat, m: nat)
    requires n <= m
    ensures Grows(Denote(env, e, mode, n), Denote(env, e, mode, m))
    decreases n, e, 2
  {
    if e.Wrapped? {
      More(env, e.inner, mode, n, m);
    } else if mode.Declaration? {
      match e
      case ArrayLiteral(elements, _) => MoreElements(env, elements, n, m);
      case ObjectLiteral(properties, _) => MoreProperties(env, properties, {}, n, m);
      case Call(callee, arguments, _) =>
        if callee.Declares? { MoreArguments(env, arguments, callee.handlers, 0, n, m); }
      case Name(symbol, meaning, _) =>
        if meaning.None? && symbol.Some? && ConstInit(env, symbol.value).Some? && n > 0 {
          More(env, ConstInit(env, symbol.value).value, Declaration, n - 1, m - 1);
        }
      case _ =>
    }
  }

  // ---------------------------------------------------------------- what is meant is returned

  /** No active constant has a meaning below `fuel`, so none of them can be needed. */
  ghost predicate Blocked(env: Env, active: set<Symbol>, fuel: nat) {
    forall s :: s in active ==>
      ConstInit(env, s).Some? && (fuel == 0 || Denote(env, ConstInit(env, s).value, Declaration, fuel - 1).None?)
  }

  /** The least fuel that gives the expression a meaning. */
  lemma LeastFuel(env: Env, e: Expr, fuel: nat) returns (least: nat)
    requires Denote(env, e, Declaration, fuel).Some?
    ensures least <= fuel && Denote(env, e, Declaration, least) == Denote(env, e, Declaration, fuel)
    ensures least == 0 || Denote(env, e, Declaration, least - 1).None?
  {
    least := fuel;
    while least > 0 && Denote(env, e, Declaration, least - 1).Some?
      invariant least <= fuel && Denote(env, e, Declaration, least) == Denote(env, e, Declaration, fuel)
    {
      More(env, e, Declaration, least - 1, least);
      least := least - 1;
    }
  }

  lemma BlockedBelow(env: Env, active: set<Symbol>, fuel: nat, s: Symbol, least: nat)
    requires Blocked(env, active, fuel) && least < fuel && ConstInit(env, s).Some?
    requires least == 0 || Denote(env, ConstInit(env, s).value, Declaration, least - 1).None?
    ensures Blocked(env, active + {s}, least)
  {
    forall a | a in active && least > 0 ensures Denote(env, ConstInit(env, a).value, Declaration, least - 1).None? {
      More(env, ConstInit(env, a).value, Declaration, least - 1, fuel - 1);
    }
  }

  /** Returned, with the meaning. */
  ghost predicate Returns(r: Result<Argument>, d: Option<Value>) {
    d.Some? ==> r.Ok? && Erase(r.value) == d.value
  }

  lemma {:induction false} CompleteName(env: Env, active: set<Symbol>, e: Expr, fuel: nat)
    requires e.Name? && Blocked(env, active, fuel)
    ensures Returns(Eval(env, active, e, Declaration), Denote(env, e, Declaration, fuel))
    decreases Left(env, active), e, 0
  {
    if e.meaning.None? && Denote(env, e, Declaration, fuel).Some? {
      var s := e.symbol.value;
      var init := ConstInit(env, s).value;
      var least := LeastFuel(env, init, fuel - 1);
      BlockedBelow(env, active, fuel, s, least);
      EnterShrinks(env, active, s);
      Complete(env, active + {s}, init, Declaration, least);
    }
  }

  lemma {:induction false} CompleteElement(env: Env, active: set<Symbol>, element: Element, at: Span, fuel: nat)
    requires Blocked(env, active, fuel) && DenoteElement(env, element, fuel).Some?
    ensures var r := EvalElement(env, active, element, at); r.Ok? && EraseAll(r.value) == DenoteElement(env, element, fuel).value
    decreases Left(env, active), element, 0
  {
    match element
    case Item(value) =>
      Complete(env, active, value, Declaration, fuel);
      EraseOne(Eval(env, active, value, Declaration).value, "", []);
    case Spread(spread) =>
      Complete(env, active, spread, Declaration, fuel);
      EraseSpread(Eval(env, active, spread, Declaration).value, at);
  }

  lemma {:induction false} CompleteElements(env: Env, active: set<Symbol>, elements: seq<Element>, at: Span, fuel: nat)
    requires Blocked(env, active, fuel) && DenoteElements(env, elements, fuel).Some?
    ensures var r := EvalElements(env, active, elements, at); r.Ok? && EraseAll(r.value) == DenoteElements(env, elements, fuel).value
    decreases Left(env, active), elements, 0
  {
    if elements == [] {
      assert EraseAll([]) == [];
    } else {
      CompleteElement(env, active, elements[0], at, fuel);
      CompleteElements(env, active, elements[1..], at, fuel);
      EraseAllConcat(EvalElement(env, active, elements[0], at).value, EvalElements(env, active, elements[1..], at).value);
    }
  }

  lemma {:induction false} CompleteArguments(env: Env, active: set<Symbol>, arguments: seq<Expr>, handlers: set<nat>,
                                             index: nat, fuel: nat)
    requires Blocked(env, active, fuel) && DenoteArguments(env, arguments, handlers, index, fuel).Some?
    ensures var r := EvalArguments(env, active, arguments, handlers, index);
            r.Ok? && EraseAll(r.value) == DenoteArguments(env, arguments, handlers, index, fuel).value
    decreases Left(env, active), arguments, 0
  {
    if arguments == [] {
      assert EraseAll([]) == [];
    } else {
      var mode := if index in handlers then Handler else Declaration;
      Complete(env, active, arguments[0], mode, fuel);
      CompleteArguments(env, active, arguments[1..], handlers, index + 1, fuel);
      EraseOne(Eval(env, active, arguments[0], mode).value, "", EvalArguments(env, active, arguments[1..], handlers, index + 1).value);
    }
  }

  lemma {:induction false} CompleteProperty(env: Env, active: set<Symbol>, property: Property, handlers: set<string>,
                                            at: Span, fuel: nat)
    requires Blocked(env, active, fuel) && DenoteProperty(env, property, handlers, fuel).Some?
    ensures var r := EvalProperty(env, active, property, handlers, at);
            r.Ok? && EraseMap(r.value) == DenoteProperty(env, property, handlers, fuel).value
    decreases Left(env, active), property, 0
  {
    match property
    case SpreadAssign(spread) =>
      Complete(env, active, spread, Declaration, fuel);
      EraseObject(Eval(env, active, spread, Declaration).value, at);
    case Assign(key, value) =>
      var mode := if key.value in handlers then Handler else Declaration;
      Complete(env, active, value, mode, fuel);
      EraseOne(Eval(env, active, value, mode).value, key.value, []);
    case Method(key, where) => EraseOne(HandlerArgument(where), key.value, []);
    case _ =>
  }

  /** With entries that share no key with what the properties mean, every property can be added. */
  lemma {:induction false} CompleteProperties(env: Env, active: set<Symbol>, properties: seq<Property>, handlers: set<string>,
                                              entries: map<string, Argument>, at: Span, fuel: nat)
    requires Blocked(env, active, fuel) && DenoteProperties(env, properties, handlers, fuel).Some?
    requires DenoteProperties(env, properties, handlers, fuel).value.Keys !! entries.Keys
    ensures var r := EvalProperties(env, active, properties, handlers, entries, at);
            r.Ok? && EraseMap(r.value) == EraseMap(entries) + DenoteProperties(env, properties, handlers, fuel).value
    decreases Left(env, active), properties, 0
  {
    if properties != [] {
      CompleteProperty(env, active, properties[0], handlers, at, fuel);
      var more := EvalProperty(env, active, properties[0], handlers, at).value;
      var tail := DenoteProperties(env, properties[1..], handlers, fuel).value;
      KeysApart(entries, more, tail);
      CompleteProperties(env, active, properties[1..], handlers, entries + more, at, fuel);
      JoinEntries(entries, more, tail);
    }
  }

  lemma KeysApart(entries: map<string, Argument>, more: map<string, Argument>, tail: map<string, Value>)
    requires EraseMap(more).Keys !! tail.Keys && (EraseMap(more) + tail).Keys !! entries.Keys
    ensures more.Keys !! entries.Keys && tail.Keys !! (entries + more).Keys
  {
    assert EraseMap(more).Keys == more.Keys;
    assert (EraseMap(more) + tail).Keys == more.Keys + tail.Keys;
    assert (entries + more).Keys == entries.Keys + more.Keys;
  }

  lemma {:induction false} CompleteObject(env: Env, active: set<Symbol>, e: Expr, fuel: nat)
    requires e.ObjectLiteral? && Blocked(env, active, fuel)
    ensures Returns(Eval(env, active, e, Declaration), Denote(env, e, Declaration, fuel))
    decreases Left(env, active), e, 0
  {
    var meant := DenoteProperties(env, e.properties, {}, fuel);
    if meant.Some? {
      CompleteProperties(env, active, e.properties, {}, map[], e.at, fuel);
      NothingSoFar(meant.value);
      EraseFields(EvalProperties(env, active, e.properties, {}, map[], e.at).value, e.at);
    }
  }

  lemma {:induction false} CompleteArray(env: Env, active: set<Symbol>, e: Expr, fuel: nat)
    requires e.ArrayLiteral? && Blocked(env, active, fuel)
    ensures Returns(Eval(env, active, e, Declaration), Denote(env, e, Declaration, fuel))
    decreases Left(env, active), e, 0
  {
    if DenoteElements(env, e.elements, fuel).Some? {
      CompleteElements(env, active, e.elements, e.at, fuel);
      EraseArray(EvalElements(env, active, e.elements, e.at).value, e.at);
    }
  }

  lemma {:induction false} CompleteCall(env: Env, active: set<Symbol>, e: Expr, fuel: nat)
    requires e.Call? && Blocked(env, active, fuel)
    ensures Returns(Eval(env, active, e, Declaration), Denote(env, e, Declaration, fuel))
    decreases Left(env, active), e, 0
  {
    match e.callee
    case Cardinality(_, _, _) =>
      DependencyExact(e.callee, e.arguments, e.at);
    case Declares(exported, handlers) =>
      if DenoteArguments(env, e.arguments, handlers, 0, fuel).Some? {
        CompleteArguments(env, active, e.arguments, handlers, 0, fuel);
        EraseDeclaration(exported, EvalArguments(env, active, e.arguments, handlers, 0).value, e.at);
      }
    case Uncallable =>
  }

  /** Whatever has a meaning is evaluated to it, as long as no active constant could be needed. */
  lemma {:induction false} Complete(env: Env, active: set<Symbol>, e: Expr, mode: Mode, fuel: nat)
    requires Blocked(env, active, fuel)
    ensures Returns(Eval(env, active, e, mode), Denote(env, e, mode, fuel))
    decreases Left(env, active), e, 2
  {
    if e.Wrapped? {
      Complete(env, active, e.inner, mode, fuel);
    } else if mode.Declaration? {
      match e
      case Literal(lit, at) => assert ErasePayload(Prim(lit)) == VLit(lit);
      case Negative(n, at) => assert ErasePayload(Prim(Num(-n))) == VLit(Num(-n));
      case ArrayLiteral(_, _) => CompleteArray(env, active, e, fuel);
      case ObjectLiteral(_, _) => CompleteObject(env, active, e, fuel);
      case Call(_, _, _) => CompleteCall(env, active, e, fuel);
      case Name(_, _, _) => CompleteName(env, active, e, fuel);
      case _ =>
    } else {
      HandlerExact(env, e);
    }
  }

  // ---------------------------------------------------------------- theorems

  ghost predicate Means(env: Env, e: Expr, mode: Mode, value: Value) {
    exists fuel :: Denote(env, e, mode, fuel) == Some(value)
  }

  /** For every expression and every finite environment, cyclic ones included, the evaluator returns
      exactly when the expression has a meaning, and what it returns is that meaning. */
  lemma EvaluatorIsExact(env: Env, e: Expr, mode: Mode, value: Value)
    ensures Means(env, e, mode, value) <==>
            Eval(env, {}, e, mode).Ok? && Erase(Eval(env, {}, e, mode).value) == value
  {
    if Means(env, e, mode, value) {
      var fuel :| Denote(env, e, mode, fuel) == Some(value);
      Complete(env, {}, e, mode, fuel);
    }
    Sound(env, {}, e, mode);
  }

  /** What `object` means: the union of a literal's properties, or the fields of the object it resolves to. */
  ghost predicate MeansObject(env: Env, e: Expr, handlers: set<string>, fields: map<string, Value>) {
    match e
    case Wrapped(inner) => MeansObject(env, inner, handlers, fields)
    case ObjectLiteral(properties, _) => exists fuel :: DenoteProperties(env, properties, handlers, fuel) == Some(fields)
    case _ => Means(env, e, Declaration, VObject(fields))
  }

  lemma LiteralIsExact(env: Env, e: Expr, handlers: set<string>, at: Span, fields: map<string, Value>)
    requires e.ObjectLiteral?
    ensures MeansObject(env, e, handlers, fields) <==>
            EvalObject(env, {}, e, handlers, at).Ok? && EraseMap(EvalObject(env, {}, e, handlers, at).value) == fields
  {
    var properties, where := e.properties, e.at;
    if MeansObject(env, e, handlers, fields) {
      var fuel :| DenoteProperties(env, properties, handlers, fuel) == Some(fields);
      CompleteProperties(env, {}, properties, handlers, map[], where, fuel);
      NothingSoFar(fields);
    }
    if EvalProperties(env, {}, properties, handlers, map[], where).Ok? {
      SoundFields(env, {}, properties, handlers, where);
    }
  }

  /** The same for `object`: it returns exactly what has a meaning as an object, and that meaning. */
  lemma {:induction false} ObjectIsExact(env: Env, e: Expr, handlers: set<string>, at: Span, fields: map<string, Value>)
    ensures MeansObject(env, e, handlers, fields) <==>
            EvalObject(env, {}, e, handlers, at).Ok? && EraseMap(EvalObject(env, {}, e, handlers, at).value) == fields
    decreases e
  {
    if e.Wrapped? {
      ObjectIsExact(env, e.inner, handlers, at, fields);
    } else if e.ObjectLiteral? {
      LiteralIsExact(env, e, handlers, at, fields);
    } else {
      EvaluatorIsExact(env, e, Declaration, VObject(fields));
      var r := Eval(env, {}, e, Declaration);
      if r.Ok? { EraseObject(r.value, at); }
    }
  }

  // -- where a result comes from

  function SpanOf(a: Argument): Span { if a.HandlerArgument? then a.target else a.at }

  /** The place an expression's value is written at: that of a constant is its initializer's. */
  function Where(env: Env, e: Expr, mode: Mode, fuel: nat): Option<Span>
    decreases fuel, e
  {
    if e.Wrapped? then Where(env, e.inner, mode, fuel)
    else if mode.Handler? then WhereHandler(env, e)
    else if !e.Name? || e.meaning.Some? then Some(e.at)
    else if fuel == 0 || e.symbol.None? || ConstInit(env, e.symbol.value).None? then None
    else Where(env, ConstInit(env, e.symbol.value).value, Declaration, fuel - 1)
  }

  function WhereHandler(env: Env, e: Expr): Option<Span> {
    match DenoteHandler(env, e)
    case Some(VHandler(target)) => Some(target)
    case _ => None
  }

  lemma {:induction false} OwnSpan(env: Env, active: set<Symbol>, e: Expr)
    requires Eval(env, active, e, Declaration).Ok? && !e.Wrapped? && !(e.Name? && e.meaning.None?)
    ensures SpanOf(Eval(env, active, e, Declaration).value) == e.at
  {
  }

  lemma HandlerSpan(env: Env, e: Expr)
    requires HandlerOf(env, e).Ok?
    ensures WhereHandler(env, e) == Some(SpanOf(HandlerOf(env, e).value))
  {
    HandlerExact(env, e);
  }

  lemma {:induction false} WhereName(env: Env, active: set<Symbol>, e: Expr)
    requires e.Name? && Initializer(env, active, e).Ok?
    ensures Where(env, e, Declaration, Left(env, active))
         == Where(env, Initializer(env, active, e).value, Declaration, Left(env, active + {e.symbol.value}))
  {
  }

  /** Whatever is returned carries the place its value is written at. */
  lemma {:induction false} SpanIsSource(env: Env, active: set<Symbol>, e: Expr, mode: Mode)
    requires Eval(env, active, e, mode).Ok?
    ensures Where(env, e, mode, Left(env, active)) == Some(SpanOf(Eval(env, active, e, mode).value))
    decreases Left(env, active), e
  {
    if e.Wrapped? {
      SpanIsSource(env, active, e.inner, mode);
    } else if mode.Handler? {
      HandlerSpan(env, e);
    } else if e.Name? && e.meaning.None? {
      NameStep(env, active, e);
      WhereName(env, active, e);
      SpanIsSource(env, active + {e.symbol.value}, Initializer(env, active, e).value, Declaration);
    } else {
      OwnSpan(env, active, e);
    }
  }

  // -- why nothing is returned

  /** A name that stands for no value, and the reason: a declaration that is not called, a name that resolves to
      nothing, a constant that is being evaluated already, no declaration, a variable, a constant without
      initializer, or something else. */
  lemma ReasonOfName(env: Env, active: set<Symbol>, e: Expr)
    requires e.Name?
    ensures var r := Initializer(env, active, e); var named := e.meaning.None? && e.symbol.Some?;
            && (r == Err(MustBeCalled) <==> e.meaning.Some?)
            && (r == Err(Unresolved) <==> e.meaning.None? && e.symbol.None?)
            && (r == Err(CyclicConstant) <==> named && e.symbol.value in active)
            && (r == Err(NoStaticValue) <==> named && e.symbol.value !in active && e.symbol.value !in env)
            && (r == Err(MutableValue) <==>
                  named && e.symbol.value !in active && e.symbol.value in env && env[e.symbol.value].Mutable?)
            && (r == Err(NoInitializer) <==>
                  named && e.symbol.value !in active && e.symbol.value in env && env[e.symbol.value] == Const(None))
            && (r == Err(NotConst) <==>
                  named && e.symbol.value !in active && e.symbol.value in env && !env[e.symbol.value].Mutable? && !env[e.symbol.value].Const?)
  {
  }

  /** The same for a handler position. */
  lemma ReasonOfHandler(env: Env, e: Expr)
    ensures var r := HandlerOf(env, e); var bound := e.Name? && e.symbol.Some? && e.symbol.value in env;
            && (r == Err(HandlerRequired) <==> !e.Function? && !e.Name?)
            && (r == Err(HandlerUnresolved) <==> e.Name? && !bound)
            && (r == Err(HandlerNotConst) <==> bound && env[e.symbol.value].Mutable?)
            && (r == Err(HandlerConstNotFunction) <==>
                  bound && env[e.symbol.value].Const? && !(env[e.symbol.value].init.Some? && env[e.symbol.value].init.value.Function?))
            && (r == Err(HandlerNotFunction) <==> bound && env[e.symbol.value].OtherDeclaration?)
  {
  }

  /** And for an expression that has no parts that could be to blame. */
  lemma {:induction false} ReasonOfLeaf(env: Env, active: set<Symbol>, e: Expr)
    requires !e.Wrapped?
    ensures var r := Eval(env, active, e, Declaration);
            && (e.Function? || e.Other? ==> r == Err(NotInSubset))
            && (e.PropertyAccess? && e.meaning.None? ==> r == Err(PropertyAccessNotSupported))
            && (e.PropertyAccess? && e.meaning == Some(MeansExport) ==> r == Err(MustBeCalled))
            && (e.Name? && Initializer(env, active, e).Err? && !(e.meaning.Some? && e.meaning.value.MeansContract?) ==>
                  r == Err(Initializer(env, active, e).error))
            && (e.Call? && e.callee.Uncallable? ==> r == Err(UnsupportedCall))
            && (e.Call? && e.callee.Cardinality? && |e.arguments| > 1 ==> r == Err(TooManyIds))
            && (e.Call? && e.callee.Cardinality? && |e.arguments| == 1 && StringText(e.arguments[0]).None? ==> r == Err(IdNotString))
  {
    if e.Call? && |e.arguments| == 1 { UnwrapText(e.arguments[0]); }
  }

  /** Of the elements of an array, the first that fails is to blame; a spread of something else than an array fails
      as such. */
  lemma {:induction false} ReasonOfElement(env: Env, active: set<Symbol>, elements: seq<Element>, i: nat, at: Span)
    requires i < |elements| && (forall j :: 0 <= j < i ==> EvalElement(env, active, elements[j], at).Ok?)
    requires EvalElement(env, active, elements[i], at).Err?
    ensures EvalElements(env, active, elements, at) == Err(EvalElement(env, active, elements[i], at).error)
    ensures var part := match elements[i] case Item(value) => value case Spread(value) => value;
            var r := Eval(env, active, part, Declaration);
            EvalElement(env, active, elements[i], at).error ==
              if r.Err? then r.error else if !r.value.ValueArgument? then NotLiteralValue else SpreadNotArray
    decreases i
  {
    if i > 0 {
      assert forall j :: 0 <= j < i - 1 ==> elements[1..][j] == elements[j + 1];
      assert elements[1..][i - 1] == elements[i];
      ReasonOfElement(env, active, elements[1..], i - 1, at);
    }
  }

  lemma {:induction false} ReasonOfArgument(env: Env, active: set<Symbol>, arguments: seq<Expr>, handlers: set<nat>, index: nat, i: nat)
    requires i < |arguments|
    requires forall j :: 0 <= j < i ==> Eval(env, active, arguments[j], if index + j in handlers then Handler else Declaration).Ok?
    requires Eval(env, active, arguments[i], if index + i in handlers then Handler else Declaration).Err?
    ensures EvalArguments(env, active, arguments, handlers, index)
         == Err(Eval(env, active, arguments[i], if index + i in handlers then Handler else Declaration).error)
    decreases i
  {
    if i > 0 {
      var rest := arguments[1..];
      assert rest[i - 1] == arguments[i];
      forall j | 0 <= j < i - 1 ensures Eval(env, active, rest[j], if index + 1 + j in handlers then Handler else Declaration).Ok? {
        assert rest[j] == arguments[j + 1] && index + 1 + j == index + (j + 1);
      }
      ReasonOfArgument(env, active, rest, handlers, index + 1, i - 1);
    }
  }

  /** What is wrong with one member of an object. */
  lemma {:induction false} ReasonOfProperty(env: Env, active: set<Symbol>, property: Property, handlers: set<string>, at: Span)
    ensures var r := EvalProperty(env, active, property, handlers, at);
            && (property.Accessor? ==> r == Err(AccessorMember))
            && (property.OtherMember? ==> r == Err(UnsupportedMember))
            && ((property.Assign? || property.Method?) && property.key.None? ==> r == Err(ComputedKey))
            && (property.Method? && property.key.Some? && property.key.value !in handlers ==> r == Err(MethodOutsideHandler))
            && (property.SpreadAssign? && Eval(env, active, property.spread, Declaration).Ok? && r.Err? ==>
                  r.error == if Eval(env, active, property.spread, Declaration).value.ValueArgument? then NotObject else NotLiteralValue)
  {
  }

  /** A key that an earlier member has makes the object fail as such. */
  lemma {:induction false} ReasonOfDuplicate(env: Env, active: set<Symbol>, properties: seq<Property>, handlers: set<string>,
                                             entries: map<string, Argument>, at: Span)
    requires properties != [] && EvalProperty(env, active, properties[0], handlers, at).Ok?
    requires !(EvalProperty(env, active, properties[0], handlers, at).value.Keys !! entries.Keys)
    ensures EvalProperties(env, active, properties, handlers, entries, at) == Err(DuplicateKey)
  {
  }

  // -- self-dependent constants

  /** The constants an expression cannot be evaluated without. */
  function Needs(e: Expr, mode: Mode): set<Symbol>
    decreases e, 2
  {
    if e.Wrapped? then Needs(e.inner, mode)
    else if mode.Handler? then {}
    else match e
      case ArrayLiteral(elements, _) => NeedsElements(elements)
      case ObjectLiteral(properties, _) => NeedsProperties(properties)
      case Call(callee, arguments, _) => if callee.Declares? then NeedsArguments(arguments, callee.handlers, 0) else {}
      case Name(symbol, meaning, _) => if meaning.None? && symbol.Some? then {symbol.value} else {}
      case _ => {}
  }

  function NeedsElements(elements: seq<Element>): set<Symbol>
    decreases elements, 0
  {
    if elements == [] then {} else NeedsElement(elements[0]) + NeedsElements(elements[1..])
  }

  function NeedsElement(element: Element): set<Symbol>
    decreases element, 0
  {
    match element
    case Item(value) => Needs(value, Declaration)
    case Spread(spread) => Needs(spread, Declaration)
  }

  function NeedsArguments(arguments: seq<Expr>, handlers: set<nat>, index: nat): set<Symbol>
    decreases arguments, 0
  {
    if arguments == [] then {}
    else Needs(arguments[0], if index in handlers then Handler else Declaration)
         + NeedsArguments(arguments[1..], handlers, index + 1)
  }

  function NeedsProperties(properties: seq<Property>): set<Symbol>
    decreases properties, 0
  {
    if properties == [] then {} else NeedsProperty(properties[0]) + NeedsProperties(properties[1..])
  }

  function NeedsProperty(property: Property): set<Symbol>
    decreases property, 0
  {
    match property
    case Assign(_, value) => Needs(value, Declaration)
    case SpreadAssign(spread) => Needs(spread, Declaration)
    case _ => {}
  }

  /** The constant has a meaning with less fuel. */
  ghost predicate Available(env: Env, s: Symbol, fuel: nat) {
    fuel > 0 && ConstInit(env, s).Some? && Denote(env, ConstInit(env, s).value, Declaration, fuel - 1).Some?
  }

  lemma {:induction false} ElementsNeed(env: Env, elements: seq<Element>, fuel: nat, s: Symbol)
    requires DenoteElements(env, elements, fuel).Some? && s in NeedsElements(elements)
    ensures Available(env, s, fuel)
    decreases elements, 0
  {
    if s in NeedsElement(elements[0]) {
      ElementNeeds(env, elements[0], fuel, s);
    } else {
      ElementsNeed(env, elements[1..], fuel, s);
    }
  }

  lemma {:induction false} ElementNeeds(env: Env, element: Element, fuel: nat, s: Symbol)
    requires DenoteElement(env, element, fuel).Some? && s in NeedsElement(element)
    ensures Available(env, s, fuel)
    decreases element, 0
  {
    match element
    case Item(value) => NeededIsAvailable(env, value, Declaration, fuel, s);
    case Spread(spread) => NeededIsAvailable(env, spread, Declaration, fuel, s);
  }

  lemma {:induction false} ArgumentsNeed(env: Env, arguments: seq<Expr>, handlers: set<nat>, index: nat, fuel: nat, s: Symbol)
    requires DenoteArguments(env, arguments, handlers, index, fuel).Some? && s in NeedsArguments(arguments, handlers, index)
    ensures Available(env, s, fuel)
    decreases arguments, 0
  {
    var mode := if index in handlers then Handler else Declaration;
    if s in Needs(arguments[0], mode) {
      NeededIsAvailable(env, arguments[0], mode, fuel, s);
    } else {
      ArgumentsNeed(env, arguments[1..], handlers, index + 1, fuel, s);
    }
  }

  lemma {:induction false} PropertiesNeed(env: Env, properties: seq<Property>, fuel: nat, s: Symbol)
    requires DenoteProperties(env, properties, {}, fuel).Some? && s in NeedsProperties(properties)
    ensures Available(env, s, fuel)
    decreases properties, 0
  {
    if s in NeedsProperty(properties[0]) {
      PropertyNeeds(env, properties[0], fuel, s);
    } else {
      PropertiesNeed(env, properties[1..], fuel, s);
    }
  }

  lemma {:induction false} PropertyNeeds(env: Env, property: Property, fuel: nat, s: Symbol)
    requires DenoteProperty(env, property, {}, fuel).Some? && s in NeedsProperty(property)
    ensures Available(env, s, fuel)
    decreases property, 0
  {
    match property
    case Assign(_, value) => NeededIsAvailable(env, value, Declaration, fuel, s);
    case SpreadAssign(spread) => NeededIsAvailable(env, spread, Declaration, fuel, s);
  }

  /** An expression with a meaning has all the constants it needs, each with a meaning of its own. */
  lemma {:induction false} NeededIsAvailable(env: Env, e: Expr, mode: Mode, fuel: nat, s: Symbol)
    requires Denote(env, e, mode, fuel).Some? && s in Needs(e, mode)
    ensures Available(env, s, fuel)
    decreases e, 2
  {
    if e.Wrapped? {
      NeededIsAvailable(env, e.inner, mode, fuel, s);
    } else {
      match e
      case ArrayLiteral(elements, _) => ElementsNeed(env, elements, fuel, s);
      case ObjectLiteral(properties, _) => PropertiesNeed(env, properties, fuel, s);
      case Call(callee, arguments, _) => ArgumentsNeed(env, arguments, callee.handlers, 0, fuel, s);
      case Name(_, _, _) =>
    }
  }

  /** Each constant of the chain is needed by the initializer of the one before. */
  ghost predicate Chain(env: Env, chain: seq<Symbol>) {
    && |chain| > 0
    && forall i :: 0 <= i < |chain| - 1 ==>
         ConstInit(env, chain[i]).Some? && chain[i + 1] in Needs(ConstInit(env, chain[i]).value, Declaration)
  }

  lemma {:induction false} ChainUsesFuel(env: Env, chain: seq<Symbol>, fuel: nat)
    requires Chain(env, chain) && Available(env, chain[0], fuel)
    ensures |chain| <= fuel && Available(env, chain[|chain| - 1], fuel - (|chain| - 1))
  {
    if |chain| > 1 {
      assert chain[0 + 1] in Needs(ConstInit(env, chain[0]).value, Declaration);
      NeededIsAvailable(env, ConstInit(env, chain[0]).value, Declaration, fuel - 1, chain[1]);
      forall i | 0 <= i < |chain[1..]| - 1
        ensures ConstInit(env, chain[1..][i]).Some?
             && chain[1..][i + 1] in Needs(ConstInit(env, chain[1..][i]).value, Declaration)
      {
        assert chain[1..][i] == chain[i + 1] && chain[1..][i + 1] == chain[i + 1 + 1];
      }
      ChainUsesFuel(env, chain[1..], fuel - 1);
    }
  }

  lemma {:induction false} CycleHasNoMeaning(env: Env, cycle: seq<Symbol>, fuel: nat)
    requires Chain(env, cycle) && |cycle| > 1 && cycle[0] == cycle[|cycle| - 1]
    ensures !Available(env, cycle[0], fuel)
    decreases fuel
  {
    if Available(env, cycle[0], fuel) {
      ChainUsesFuel(env, cycle, fuel);
      CycleHasNoMeaning(env, cycle, fuel - (|cycle| - 1));
    }
  }

  /** A constant that depends on itself, directly or through others, never returns a value: whatever
      needs it is an error. */
  lemma SelfDependentNeverReturns(env: Env, cycle: seq<Symbol>, e: Expr, mode: Mode)
    requires Chain(env, cycle) && |cycle| > 1 && cycle[0] == cycle[|cycle| - 1]
    requires cycle[0] in Needs(e, mode)
    ensures Eval(env, {}, e, mode).Err?
  {
    Sound(env, {}, e, mode);
    CycleHasNoMeaning(env, cycle, Left(env, {}));
    if Denote(env, e, mode, Left(env, {})).Some? {
      NeededIsAvailable(env, e, mode, Left(env, {}), cycle[0]);
    }
  }

  // ---------------------------------------------------------------- the evaluator object

  /** What was collected so far, put before the rest. */
  function After(done: seq<Argument>, rest: Result<seq<Argument>>): Result<seq<Argument>> {
    if rest.Ok? then Ok(done + rest.value) else rest
  }

  lemma AfterMore(done: seq<Argument>, head: seq<Argument>, rest: Result<seq<Argument>>)
    ensures After(done, After(head, rest)) == After(done + head, rest)
    ensures After([], rest) == rest
  {
    if rest.Ok? {
      assert done + (head + rest.value) == done + head + rest.value;
      assert [] + rest.value == rest.value;
    }
  }

  lemma StepElements(env: Env, active: set<Symbol>, elements: seq<Element>, i: nat, at: Span)
    requires i < |elements|
    ensures EvalElements(env, active, elements[i..], at) ==
            match EvalElement(env, active, elements[i], at)
            case Ok(head) => After(head, EvalElements(env, active, elements[i + 1..], at))
            case Err(error) => Err(error)
  {
    var rest := elements[i..];
    assert rest[0] == elements[i] && rest[1..] == elements[i + 1..];
  }

  lemma StepArguments(env: Env, active: set<Symbol>, arguments: seq<Expr>, handlers: set<nat>, i: nat)
    requires i < |arguments|
    ensures EvalArguments(env, active, arguments[i..], handlers, i) ==
            match Eval(env, active, arguments[i], if i in handlers then Handler else Declaration)
            case Ok(head) => After([head], EvalArguments(env, active, arguments[i + 1..], handlers, i + 1))
            case Err(error) => Err(error)
  {
    var rest := arguments[i..];
    assert rest[0] == arguments[i] && rest[1..] == arguments[i + 1..];
  }

  /** `StaticEvaluator`: the set of active symbols is updated in place and put back on every path. */
  class Evaluator {
    const env: Env
    var active: set<Symbol>

    constructor (env: Env)
      ensures this.env == env && active == {}
    {
      this.env := env;
      active := {};
    }

    method Value(e: Expr, mode: Mode) returns (r: Result<Argument>)
      modifies this
      ensures r == Eval(env, old(active), e, mode) && active == old(active)
      decreases Left(env, active), e, 2
    {
      if e.Wrapped? {
        r := Value(e.inner, mode);
        return;
      }
      if mode.Handler? { return HandlerOf(env, e); }
      match e
      case Literal(lit, at) => r := Ok(ValueArgument(Prim(lit), at));
      case Negative(n, at) => r := Ok(ValueArgument(Prim(Num(-n)), at));
      case ArrayLiteral(elements, at) =>
        var items := Elements(elements, at);
        r := if items.Ok? then Ok(ValueArgument(Arr(BoxAll(items.value)), at)) else Err(items.error);
      case ObjectLiteral(properties, at) =>
        var fields := Properties(properties, {}, at);
        r := if fields.Ok? then Ok(ValueArgument(Obj(BoxFields(fields.value)), at)) else Err(fields.error);
      case Call(callee, arguments, at) =>
        match callee {
          case Cardinality(_, _, _) =>
            var id := DependencyId(arguments);
            r := if id.Ok? then Ok(ValueArgument(Obj(DependencyRecord(callee, id.value)), at)) else Err(id.error);
          case Declares(exported, handlers) =>
            var args := Arguments(arguments, handlers);
            r := if args.Ok? then Ok(DeclarationArgument(exported, args.value, at)) else Err(args.error);
          case Uncallable => r := Err(UnsupportedCall);
        }
      case Name(_, meaning, at) =>
        if meaning.Some? && meaning.value.MeansContract? {
          r := Ok(ContractArgument(meaning.value.contract, at));
        } else {
          r := Constant(e);
        }
      case PropertyAccess(meaning, at) =>
        r := if meaning.Some? && meaning.value.MeansContract? then Ok(ContractArgument(meaning.value.contract, at))
             else Err(if meaning.Some? then MustBeCalled else PropertyAccessNotSupported);
      case _ => r := Err(NotInSubset);
    }

    /** `constant`, entered with the symbol added and left with it removed. */
    method Constant(e: Expr) returns (r: Result<Argument>)
      requires e.Name? && !(e.meaning.Some? && e.meaning.value.MeansContract?)
      modifies this
      ensures r == Eval(env, old(active), e, Declaration) && active == old(active)
      decreases Left(env, active), e, 1
    {
      var init := Initializer(env, active, e);
      if init.Err? { return Err(init.error); }
      var symbol := e.symbol.value;
      active := active + {symbol};
      r := Value(init.value, Declaration);
      active := active - {symbol};
    }

    method Elements(elements: seq<Element>, at: Span) returns (r: Result<seq<Argument>>)
      modifies this
      ensures r == EvalElements(env, old(active), elements, at) && active == old(active)
      decreases Left(env, active), elements, 0
    {
      var done, i := [], 0;
      assert elements[0..] == elements;
      AfterMore([], [], EvalElements(env, active, elements, at));
      while i < |elements|
        invariant i <= |elements| && active == old(active)
        invariant EvalElements(env, active, elements, at) == After(done, EvalElements(env, active, elements[i..], at))
      {
        StepElements(env, active, elements, i, at);
        var items := OneElement(elements[i], at);
        if items.Err? { return items; }
        AfterMore(done, items.value, EvalElements(env, active, elements[i + 1..], at));
        done := done + items.value;
        i := i + 1;
      }
      assert elements[i..] == [] && done + [] == done;
      return Ok(done);
    }

    method OneElement(element: Element, at: Span) returns (r: Result<seq<Argument>>)
      modifies this
      ensures r == EvalElement(env, old(active), element, at) && active == old(active)
      decreases Left(env, active), element, 0
    {
      match element
      case Item(item) =>
        var value := Value(item, Declaration);
        r := if value.Ok? then Ok([value.value]) else Err(value.error);
      case Spread(spread) =>
        var value := Value(spread, Declaration);
        r := if value.Ok? then SpreadItems(value.value, at) else Err(value.error);
    }

    method Arguments(arguments: seq<Expr>, handlers: set<nat>) returns (r: Result<seq<Argument>>)
      modifies this
      ensures r == EvalArguments(env, old(active), arguments, handlers, 0) && active == old(active)
      decreases Left(env, active), arguments, 0
    {
      var done, i := [], 0;
      assert arguments[0..] == arguments;
      AfterMore([], [], EvalArguments(env, active, arguments, handlers, 0));
      while i < |arguments|
        invariant i <= |arguments| && active == old(active)
        invariant EvalArguments(env, active, arguments, handlers, 0) ==
                  After(done, EvalArguments(env, active, arguments[i..], handlers, i))
      {
        StepArguments(env, active, arguments, handlers, i);
        var value := Value(arguments[i], if i in handlers then Handler else Declaration);
        if value.Err? { return Err(value.error); }
        AfterMore(done, [value.value], EvalArguments(env, active, arguments[i + 1..], handlers, i + 1));
        done := done + [value.value];
        i := i + 1;
      }
      assert arguments[i..] == [] && done + [] == done;
      return Ok(done);
    }

    method Properties(properties: seq<Property>, handlers: set<string>, at: Span)
      returns (r: Result<map<string, Argument>>)
      modifies this
      ensures r == EvalProperties(env, old(active), properties, handlers, map[], at) && active == old(active)
      decreases Left(env, active), properties, 0
    {
      var entries: map<string, Argument> := map[];
      var i := 0;
      while i < |properties|
        invariant i <= |properties| && active == old(active)
        invariant EvalProperties(env, active, properties, handlers, map[], at) ==
                  EvalProperties(env, active, properties[i..], handlers, entries, at)
      {
        ghost var rest := properties[i..];
        assert rest[1..] == properties[i + 1..];
        var more := OneProperty(properties[i], handlers, at);
        if more.Err? { return Err(more.error); }
        if !(more.value.Keys !! entries.Keys) { return Err(DuplicateKey); }
        entries := entries + more.value;
        i := i + 1;
      }
      return Ok(entries);
    }

    method OneProperty(property: Property, handlers: set<string>, at: Span)
      returns (r: Result<map<string, Argument>>)
      modifies this
      ensures r == EvalProperty(env, old(active), property, handlers, at) && active == old(active)
      decreases Left(env, active), property, 0
    {
      match property
      case SpreadAssign(spread) =>
        var value := Value(spread, Declaration);
        r := if value.Ok? then RequiredObject(value.value, at) else Err(value.error);
      case Accessor => r := Err(AccessorMember);
      case Method(key, where) =>
        r := if key.None? then Err(ComputedKey)
             else if key.value !in handlers then Err(MethodOutsideHandler)
             else Ok(map[key.value := HandlerArgument(where)]);
      case OtherMember => r := Err(UnsupportedMember);
      case Assign(key, initializer) =>
        if key.None? { return Err(ComputedKey); }
        var value := Value(initializer, if key.value in handlers then Handler else Declaration);
        r := if value.Ok? then Ok(map[key.value := value.value]) else Err(value.error);
    }

    method Object(e: Expr, handlers: set<string>, at: Span) returns (r: Result<map<string, Argument>>)
      modifies this
      ensures r == EvalObject(env, old(active), e, handlers, at) && active == old(active)
    {
      var value := Unwrap(e);
      if value.ObjectLiteral? {
        r := Properties(value.properties, handlers, value.at);
      } else {
        var resolved := Value(e, Declaration);
        r := if resolved.Ok? then RequiredObject(resolved.value, at) else Err(resolved.error);
      }
    }
  }
}
