/**
 * The layout-aware renderer of src/View/Renderer/Renderer.php: constructor
 * layout normalisation, composition of the model to render (htmx wrapping,
 * the layout gate, layout selection), depth-first rendering with
 * capture-to-variable semantics, and flattening of the path stacks.
 *
 * The template engine (`PhpRenderer::render`), `mergeParams` /
 * `normalizeParams` and the state of freshly constructed Laminas models are
 * parameters of the model.
 */
module View {
  import opened Wrappers
  import opened Php

  /** Failures the renderer raises. */
  datatype Error =
    | InvalidLayout   // Exception\InvalidArgumentException from the constructor
    | TerminalChild   // Exception\RenderingException from renderModel
    | TemplateFailed  // the template engine could not render a model
    | NotAString      // `$oldResult . $result` on a value PHP cannot convert

  /** What `render` accepts as `$params`: an array, or a view model. */
  datatype Params = ArrayParams(vars: map<string, Value>) | ModelParams(model: ViewModel)

  /** The state of `new ViewModel()`, `new BodyModel()`, `new HeaderModel()`
    * and `new FooterModel()`. */
  datatype Prototypes = Prototypes(viewModel: ViewModel, body: ViewModel, header: ViewModel, footer: ViewModel)

  /** Progress of `renderModel`'s loop over the children of one model: the
    * failure that stopped it, if any, and the parent's variables and children
    * as they stand. */
  datatype Capture = Capture(stop: Option<Error>, variables: map<string, Value>, children: seq<ViewModel>)

  /** The outcome of rendering a model, and the model as rendering left it. */
  datatype Rendered = Rendered(out: Result<string, Error>, model: ViewModel)

  /** Mezzio's `TemplatePath`. */
  datatype TemplatePath = TemplatePath(path: string, namespace: Option<string>)

  /** `NamespacedPathStackResolver::DEFAULT_NAMESPACE`. */
  const DEFAULT_NAMESPACE: string := "__DEFAULT__"

  /**
   * The constructor's treatment of `$layout`: a string other than "" becomes
   * a fresh view model with that template; null means no default layout; a
   * view model is kept; anything else, "" included, is rejected.
   */
  function NormalizeLayout(layout: Value, blank: ViewModel): (r: Result<Option<ViewModel>, Error>)
    ensures r.Err? <==> !(layout.Null? || layout.Model? || (layout.Str? && layout.s != ""))
    ensures r.Err? ==> r.error == InvalidLayout
    ensures layout.Null? ==> r == Ok(None)
    ensures layout.Model? ==> r == Ok(Some(layout.model))
    ensures layout.Str? && layout.s != "" ==>
              r.Ok? && r.value.Some? && r.value.value == blank.(template := layout.s)
  {
    var converted := if layout.Str? && layout.s != "" then Model(blank.(template := layout.s)) else layout;
    if converted.Null? then Ok(None)
    else if converted.Model? then Ok(Some(converted.model))
    else Err(InvalidLayout)
  }

  /** The `"0"` layout is accepted by the constructor, though `render` treats
    * a `layout` variable "0" as empty. */
  lemma ZeroLayoutAccepted(blank: ViewModel)
    ensures NormalizeLayout(Str("0"), blank) == Ok(Some(blank.(template := "0")))
    ensures NormalizeLayout(Str(""), blank) == Err(InvalidLayout)
  {
  }

  // ---------------------------------------------------------------------
  // getPaths

  /** The namespace `getPaths` reports for a key of the resolver's path
    * stack: none for the default namespace, an empty one or an integer key. */
  function NamespaceOf(key: Key): (ns: Option<string>)
    ensures ns.None? <==> key.IntKey? || key.s == DEFAULT_NAMESPACE || IsEmpty(key.s)
    ensures ns.Some? ==> key == StrKey(ns.value)
  {
    match key
    case IntKey(_) => None
    case StrKey(s) => if s == DEFAULT_NAMESPACE || IsEmpty(s) then None else Some(s)
  }

  /** One `TemplatePath` per path of a namespace, in the stack's order. */
  function Entries(paths: seq<string>, ns: Option<string>): (r: seq<TemplatePath>)
  {
    if paths == [] then []
    else Entries(paths[..|paths| - 1], ns) + [TemplatePath(paths[|paths| - 1], ns)]
  }

  /** All paths of all namespaces, namespace by namespace. */
  function Flatten(stack: seq<(Key, seq<string>)>): seq<TemplatePath>
  {
    if stack == [] then []
    else
      var last := stack[|stack| - 1];
      Flatten(stack[..|stack| - 1]) + Entries(last.1, NamespaceOf(last.0))
  }

  function TotalPaths(stack: seq<(Key, seq<string>)>): nat
  {
    if stack == [] then 0 else TotalPaths(stack[..|stack| - 1]) + |stack[|stack| - 1].1|
  }

  lemma {:induction false} EntriesAt(paths: seq<string>, ns: Option<string>)
    ensures |Entries(paths, ns)| == |paths|
    ensures forall j :: 0 <= j < |paths| ==> Entries(paths, ns)[j] == TemplatePath(paths[j], ns)
  {
    if paths != [] {
      EntriesAt(paths[..|paths| - 1], ns);
    }
  }

  /** `getPaths` yields exactly one entry per stored path. */
  lemma {:induction false} FlattenLength(stack: seq<(Key, seq<string>)>)
    ensures |Flatten(stack)| == TotalPaths(stack)
  {
    if stack != [] {
      FlattenLength(stack[..|stack| - 1]);
      EntriesAt(stack[|stack| - 1].1, NamespaceOf(stack[|stack| - 1].0));
    }
  }

  /** Every stored path has an entry, with its key's normalised namespace. */
  lemma {:induction false} FlattenComplete(stack: seq<(Key, seq<string>)>, i: nat, j: nat)
    requires i < |stack| && j < |stack[i].1|
    ensures TemplatePath(stack[i].1[j], NamespaceOf(stack[i].0)) in Flatten(stack)
  {
    var init := stack[..|stack| - 1];
    var last := stack[|stack| - 1];
    assert Flatten(stack) == Flatten(init) + Entries(last.1, NamespaceOf(last.0));
    if i < |init| {
      assert stack[i] == init[i];
      FlattenComplete(init, i, j);
    } else {
      EntriesAt(last.1, NamespaceOf(last.0));
      assert Entries(last.1, NamespaceOf(last.0))[j] == TemplatePath(stack[i].1[j], NamespaceOf(stack[i].0));
    }
  }

  /** Every entry is a stored path with its key's normalised namespace. */
  lemma {:induction false} FlattenSound(stack: seq<(Key, seq<string>)>, t: TemplatePath)
    requires t in Flatten(stack)
    ensures exists i, j :: 0 <= i < |stack| && 0 <= j < |stack[i].1|
                        && t == TemplatePath(stack[i].1[j], NamespaceOf(stack[i].0))
  {
    var init := stack[..|stack| - 1];
    var last := stack[|stack| - 1];
    assert Flatten(stack) == Flatten(init) + Entries(last.1, NamespaceOf(last.0));
    if t in Flatten(init) {
      FlattenSound(init, t);
      var i, j :| 0 <= i < |init| && 0 <= j < |init[i].1|
               && t == TemplatePath(init[i].1[j], NamespaceOf(init[i].0));
      assert stack[i] == init[i];
    } else {
      EntriesAt(last.1, NamespaceOf(last.0));
      var j :| 0 <= j < |last.1| && Entries(last.1, NamespaceOf(last.0))[j] == t;
      assert stack[|stack| - 1] == last;
    }
  }

  /** An entry is in the list if and only if it is a stored path paired with
    * its key's normalised namespace. */
  lemma FlattenMembers(stack: seq<(Key, seq<string>)>, t: TemplatePath)
    ensures t in Flatten(stack) <==>
      exists i, j :: 0 <= i < |stack| && 0 <= j < |stack[i].1|
                  && t == TemplatePath(stack[i].1[j], NamespaceOf(stack[i].0))
  {
    if t in Flatten(stack) {
      FlattenSound(stack, t);
    } else {
      forall i, j | 0 <= i < |stack| && 0 <= j < |stack[i].1|
        ensures t != TemplatePath(stack[i].1[j], NamespaceOf(stack[i].0))
      {
        FlattenComplete(stack, i, j);
      }
    }
  }

  /** `getPaths`: the resolver's path stacks (in the order the resolver
    * yields them) flattened into `TemplatePath`s. */
  method GetPaths(stack: seq<(Key, seq<string>)>) returns (paths: seq<TemplatePath>)
    ensures paths == Flatten(stack)
  {
    paths := [];
    var i := 0;
    while i < |stack|
      invariant 0 <= i <= |stack|
      invariant paths == Flatten(stack[..i])
    {
      var (namespace, namespacedPaths) := stack[i];
      var ns := NamespaceOf(namespace);
      var j := 0;
      while j < |namespacedPaths|
        invariant 0 <= j <= |namespacedPaths|
        invariant paths == Flatten(stack[..i]) + Entries(namespacedPaths[..j], ns)
      {
        assert namespacedPaths[..j + 1][..j] == namespacedPaths[..j];
        paths := paths + [TemplatePath(namespacedPaths[j], ns)];
        j := j + 1;
      }
      assert namespacedPaths[..j] == namespacedPaths;
      assert stack[..i + 1][..i] == stack[..i];
      i := i + 1;
    }
    assert stack[..i] == stack;
  }

  // ---------------------------------------------------------------------
  // The renderer

  class Renderer {
    /** `PhpRenderer::render` of a model with this template and these
      * variables; `None` when it raises (an unresolvable template). */
    const engine: (string, map<string, Value>) -> Option<string>
    /** `mergeParams($name, normalizeParams($params))`. */
    const mergeParams: (string, map<string, Value>) -> map<string, Value>
    const prototypes: Prototypes
    const enableHtmx: bool
    /** The default layout. */
    const layout: Option<ViewModel>

    constructor (engine: (string, map<string, Value>) -> Option<string>,
                 mergeParams: (string, map<string, Value>) -> map<string, Value>,
                 prototypes: Prototypes, layout: Option<ViewModel>, enableHtmx: bool)
      ensures this.engine == engine && this.mergeParams == mergeParams
      ensures this.prototypes == prototypes && this.layout == layout && this.enableHtmx == enableHtmx
    {
      this.engine := engine;
      this.mergeParams := mergeParams;
      this.prototypes := prototypes;
      this.layout := layout;
      this.enableHtmx := enableHtmx;
    }

    /** `new Renderer($renderer, $layout, ..., $enableHtmx)`: fails exactly
      * when the layout is invalid. */
    static method New(engine: (string, map<string, Value>) -> Option<string>,
                      mergeParams: (string, map<string, Value>) -> map<string, Value>,
                      prototypes: Prototypes, layout: Value := Null, enableHtmx: bool := false)
      returns (r: Result<Renderer, Error>)
      ensures r.Err? <==> NormalizeLayout(layout, prototypes.viewModel).Err?
      ensures r.Err? ==> r.error == InvalidLayout
      ensures r.Ok? ==> fresh(r.value) && r.value.layout == NormalizeLayout(layout, prototypes.viewModel).value
      ensures r.Ok? ==> (r.value.engine == engine && r.value.mergeParams == mergeParams
                         && r.value.prototypes == prototypes && r.value.enableHtmx == enableHtmx)
    {
      var normalized := NormalizeLayout(layout, prototypes.viewModel);
      if normalized.Err? {
        return Err(normalized.error);
      }
      var renderer := new Renderer(engine, mergeParams, prototypes, normalized.value, enableHtmx);
      return Ok(renderer);
    }

    /** `mergeViewModel`: the model's variables extended (and overridden)
      * by the merged parameters, under template `name`. */
    function MergeViewModel(name: string, m: ViewModel): (r: ViewModel)
      ensures r.template == name && r.children == m.children && r.captureTo == m.captureTo
      ensures r.append == m.append && r.terminate == m.terminate
      ensures r.variables.Keys == m.variables.Keys + mergeParams(name, m.variables).Keys
      ensures forall k :: k in mergeParams(name, m.variables) ==> r.variables[k] == mergeParams(name, m.variables)[k]
      ensures forall k :: k in m.variables && k !in mergeParams(name, m.variables) ==> r.variables[k] == m.variables[k]
    {
      m.(variables := m.variables + mergeParams(name, m.variables), template := name)
    }

    /** The page model `createModel` builds from array parameters. */
    function Page(name: string, vars: map<string, Value>): (r: ViewModel)
      ensures r.template == name && r.variables == mergeParams(name, vars)
    {
      prototypes.viewModel.(variables := mergeParams(name, vars), template := name)
    }

    /** `createModel`: the page, wrapped in htmx mode as the last of the body
      * model's children after the header and the footer. */
    function CreateModel(name: string, vars: map<string, Value>): (r: ViewModel)
      ensures !enableHtmx ==> r == Page(name, vars)
      ensures enableHtmx ==> r == prototypes.body.(children := prototypes.body.children
                                   + [prototypes.header, prototypes.footer, Page(name, vars)])
    {
      var model := Page(name, vars);
      if enableHtmx then
        var body := prototypes.body;
        var body := body.(children := body.children + [prototypes.header]);
        var body := body.(children := body.children + [prototypes.footer]);
        body.(children := body.children + [model])
      else
        model
    }

    /** The model `render` starts from. */
    function Initial(name: string, params: Params): ViewModel
    {
      match params
      case ModelParams(m) => MergeViewModel(name, m)
      case ArrayParams(vars) => CreateModel(name, vars)
    }

    /** The layout gate of `render`: only a `layout` variable that is exactly
      * `false` skips the layout. */
    predicate UsesLayout(vm: ViewModel): (b: bool)
      ensures !b <==> "layout" in vm.variables && vm.variables["layout"] == Bool(false)
    {
      Lookup(vm.variables, "layout") != Bool(false)
    }

    /** Whether `prepareLayout` takes the layout from the page's own
      * `layout` variable (a non-empty string or a view model). */
    predicate Provides(provided: Value)
    {
      (provided.Str? && !IsEmpty(provided.s)) || provided.Model?
    }

    /** The layout `prepareLayout` chooses for a `layout` variable. */
    function SelectLayout(provided: Value): (r: Option<ViewModel>)
      ensures provided.Str? && !IsEmpty(provided.s) ==> r == Some(prototypes.viewModel.(template := provided.s))
      ensures provided.Model? ==> r == Some(provided.model)
      ensures !Provides(provided) ==> r == layout
      ensures r.None? <==> !Provides(provided) && layout.None?
    {
      if provided.Str? && !IsEmpty(provided.s) then Some(prototypes.viewModel.(template := provided.s))
      else if provided.Model? then Some(provided.model)
      else layout
    }

    /** `prepareLayout`. */
    function PrepareLayout(vm: ViewModel): (r: ViewModel)
      ensures SelectLayout(Lookup(vm.variables, "layout")).None? ==> r == vm
      ensures SelectLayout(Lookup(vm.variables, "layout")).Some? ==>
                var l := SelectLayout(Lookup(vm.variables, "layout")).value;
                && r.template == l.template && r.captureTo == l.captureTo
                && r.append == l.append && r.terminate == l.terminate
                && r.variables == l.variables + mergeParams(l.template, l.variables)
                && |r.children| == |l.children| + 1 && r.children[..|l.children|] == l.children
                && (Provides(Lookup(vm.variables, "layout")) ==>
                      r.children[|l.children|] == vm.(variables := vm.variables["layout" := Null]))
                && (!Provides(Lookup(vm.variables, "layout")) ==> r.children[|l.children|] == vm)
    {
      var provided := Lookup(vm.variables, "layout");
      var page := if Provides(provided) then vm.(variables := vm.variables["layout" := Null]) else vm;
      match SelectLayout(provided)
      case None => page
      case Some(l) =>
        var l := l.(children := l.children + [page]);
        l.(variables := l.variables + mergeParams(l.template, l.variables))
    }

    /** The model `render` hands to `renderModel`. */
    function ToRender(name: string, params: Params): ViewModel
    {
      var vm := Initial(name, params);
      if UsesLayout(vm) then PrepareLayout(vm) else vm
    }

    /** The engine's result as a render outcome. */
    function RenderTemplate(template: string, variables: map<string, Value>): (r: Result<string, Error>)
      ensures r.Ok? <==> engine(template, variables).Some?
      ensures r.Ok? ==> r.value == engine(template, variables).value
      ensures r.Err? ==> r.error == TemplateFailed
    {
      match engine(template, variables)
      case Some(text) => Ok(text)
      case None => Err(TemplateFailed)
    }

    /**
     * The state of `renderModel`'s loop on `m` after its first `i` children:
     * terminal children stop it, children without a capture target are
     * skipped, the others are merged, rendered, and their output overwrites
     * or is appended to the parent's variable.
     */
    function Captured(m: ViewModel, i: nat): (c: Capture)
      requires i <= |m.children|
      ensures |c.children| == |m.children|
      decreases Height(m), 0, i, 1
    {
      if i == 0 then Capture(None, m.variables, m.children)
      else Step(m, i - 1, Captured(m, i - 1))
    }

    /** One turn of the loop, on the child at position `i`. */
    function Step(m: ViewModel, i: nat, c: Capture): (next: Capture)
      requires i < |m.children| && |c.children| == |m.children|
      ensures |next.children| == |m.children|
      decreases Height(m), 0, i + 1, 0
    {
      var child := m.children[i];
      if c.stop.Some? then c
      else if child.terminate then Capture(Some(TerminalChild), c.variables, c.children)
      else if IsEmpty(child.captureTo) then c
      else
        ChildIsLower(m, i);
        Absorb(c, i, child, RenderTree(MergeViewModel(child.template, child)))
    }

    /** How the loop takes in the rendering `r` of the capturing child at
      * position `i`: the child's new state is kept, and its output overwrites
      * or is appended to the parent's variable. */
    static function Absorb(c: Capture, i: nat, child: ViewModel, r: Rendered): (next: Capture)
      requires i < |c.children|
      ensures |next.children| == |c.children| && next.children == c.children[i := r.model]
      ensures r.out.Err? ==> next.stop == Some(r.out.error) && next.variables == c.variables
      ensures r.out.Ok? && !child.append ==>
                next.stop.None? && next.variables == c.variables[child.captureTo := Str(r.out.value)]
      ensures r.out.Ok? && child.append && StringCast(Lookup(c.variables, child.captureTo)).Some? ==>
                next.stop.None?
                && next.variables == c.variables[child.captureTo :=
                     Str(StringCast(Lookup(c.variables, child.captureTo)).value + r.out.value)]
      ensures r.out.Ok? && child.append && Lookup(c.variables, child.captureTo).Model? ==>
                next.stop == Some(NotAString) && next.variables == c.variables
    {
      var kids := c.children[i := r.model];
      match r.out
      case Err(e) => Capture(Some(e), c.variables, kids)
      case Ok(text) =>
        if child.append then
          match StringCast(Lookup(c.variables, child.captureTo))
          case None => Capture(Some(NotAString), c.variables, kids)
          case Some(prior) => Capture(None, c.variables[child.captureTo := Str(prior + text)], kids)
        else
          Capture(None, c.variables[child.captureTo := Str(text)], kids)
    }

    /** `renderModel`: the children first, then the model's own template with
      * the variables they left. */
    function RenderTree(m: ViewModel): (r: Rendered)
      decreases Height(m), 1
    {
      var c := Captured(m, |m.children|);
      var after := m.(variables := c.variables, children := c.children);
      match c.stop
      case Some(e) => Rendered(Err(e), after)
      case None => Rendered(RenderTemplate(m.template, c.variables), after)
    }

    /** What a capturing child contributes: its merged model, rendered. */
    function Output(child: ViewModel): Result<string, Error>
    {
      RenderTree(MergeViewModel(child.template, child)).out
    }

    /** Depth-first rendering of a view model (`renderModel`). */
    method RenderModel(model: ViewModel) returns (out: Result<string, Error>, after: ViewModel)
      ensures Rendered(out, after) == RenderTree(model)
      decreases Height(model)
    {
      var variables := model.variables;
      var children := model.children;
      var i := 0;
      while i < |model.children|
        invariant i <= |model.children|
        invariant Captured(model, i) == Capture(None, variables, children)
      {
        var child := model.children[i];
        if child.terminate {
          CaptureStops(model, i + 1);
          return Err(TerminalChild), model.(variables := variables, children := children);
        }
        var capture := child.captureTo;
        if !IsEmpty(capture) {
          var merged := MergeViewModel(child.template, child);
          ChildIsLower(model, i);
          var result, rendered := RenderModel(merged);
          children := children[i := rendered];
          if result.Err? {
            CaptureStops(model, i + 1);
            return result, model.(variables := variables, children := children);
          }
          if child.append {
            var oldResult := StringCast(Lookup(variables, capture));
            if oldResult.None? {
              CaptureStops(model, i + 1);
              return Err(NotAString), model.(variables := variables, children := children);
            }
            variables := variables[capture := Str(oldResult.value + result.value)];
          } else {
            variables := variables[capture := Str(result.value)];
          }
        }
        i := i + 1;
      }
      out := RenderTemplate(model.template, variables);
      after := model.(variables := variables, children := children);
    }

    /** `render($name, $params)`. */
    method Render(name: string, params: Params := ArrayParams(map[])) returns (out: Result<string, Error>)
      ensures out == RenderTree(ToRender(name, params)).out
    {
      var viewModel := Initial(name, params);
      if UsesLayout(viewModel) {
        viewModel := PrepareLayout(viewModel);
      }
      var after;
      out, after := RenderModel(viewModel);
    }

    // -------------------------------------------------------------------
    // Properties of renderModel

    /** Once the loop has stopped, later children change nothing. */
    lemma {:induction false} CaptureStops(m: ViewModel, i: nat)
      requires i <= |m.children|
      requires Captured(m, i).stop.Some?
      ensures Captured(m, |m.children|) == Captured(m, i)
      decreases |m.children| - i
    {
      if i < |m.children| {
        assert Captured(m, i + 1) == Captured(m, i);
        CaptureStops(m, i + 1);
      }
    }

    /** A successful render ran every child without stopping. */
    lemma CaptureRanThrough(m: ViewModel, i: nat)
      requires i <= |m.children|
      requires RenderTree(m).out.Ok?
      ensures Captured(m, i).stop.None?
    {
      if Captured(m, i).stop.Some? {
        CaptureStops(m, i);
      }
    }

    /** With no terminal and no capturing child, the model is rendered with
      * exactly its own variables and comes back unchanged. */
    lemma {:induction false} OwnVariablesWithoutCaptures(m: ViewModel)
      requires forall j :: 0 <= j < |m.children| ==> !m.children[j].terminate && IsEmpty(m.children[j].captureTo)
      ensures RenderTree(m) == Rendered(RenderTemplate(m.template, m.variables), m)
    {
      NothingCapturedUpTo(m, |m.children|);
    }

    lemma {:induction false} NothingCapturedUpTo(m: ViewModel, i: nat)
      requires i <= |m.children|
      requires forall j :: 0 <= j < i ==> !m.children[j].terminate && IsEmpty(m.children[j].captureTo)
      ensures Captured(m, i) == Capture(None, m.variables, m.children)
    {
      if i > 0 {
        NothingCapturedUpTo(m, i - 1);
      }
    }

    /**
     * A terminal child makes the render fail, whether or not it captures;
     * when it is the first failure, the failure is `TerminalChild` and the
     * parent holds what the earlier siblings captured.
     */
    lemma TerminalChildFails(m: ViewModel, i: nat)
      requires i < |m.children| && m.children[i].terminate
      ensures RenderTree(m).out.Err?
      ensures Captured(m, i).stop.None? ==>
                RenderTree(m).out == Err(TerminalChild)
                && RenderTree(m).model.variables == Captured(m, i).variables
    {
      if Captured(m, i).stop.Some? {
        CaptureStops(m, i);
        CaptureStops(m, i + 1);
      } else {
        CaptureStops(m, i + 1);
      }
    }

    /** A child that is neither terminal nor capturing is passed over without
      * being visited, whatever its own children are (terminal ones included). */
    lemma TerminalGrandchildSkipped(m: ViewModel, i: nat)
      requires i < |m.children| && !m.children[i].terminate && IsEmpty(m.children[i].captureTo)
      ensures Captured(m, i + 1) == Captured(m, i)
    {
    }

    /** Whether some child among the first `i` captures into `key`. */
    predicate TargetedBefore(m: ViewModel, i: nat, key: string)
      requires i <= |m.children|
    {
      exists j :: 0 <= j < i && m.children[j].captureTo == key && !IsEmpty(key)
    }

    /** Absorbing a child's rendering changes no variable but its capture target. */
    static lemma AbsorbOnlyTarget(c: Capture, i: nat, child: ViewModel, r: Rendered, key: string)
      requires i < |c.children| && key != child.captureTo
      ensures (key in Absorb(c, i, child, r).variables) == (key in c.variables)
      ensures key in c.variables ==> Absorb(c, i, child, r).variables[key] == c.variables[key]
    {
    }

    /** One child changes at most the variable it captures into. */
    lemma OnlyTargetChanges(m: ViewModel, i: nat, key: string)
      requires i < |m.children|
      requires IsEmpty(m.children[i].captureTo) || m.children[i].captureTo != key
      ensures (key in Captured(m, i + 1).variables) == (key in Captured(m, i).variables)
      ensures key in Captured(m, i).variables ==> Captured(m, i + 1).variables[key] == Captured(m, i).variables[key]
    {
      var child := m.children[i];
      var c := Captured(m, i);
      if c.stop.None? && !child.terminate && !IsEmpty(child.captureTo) {
        CapturedStep(m, i);
        AbsorbOnlyTarget(c, i, child, RenderTree(MergeViewModel(child.template, child)), key);
      }
    }

    /** Children that do not capture into `key` leave it as it was. */
    lemma {:induction false} KeyUntouched(m: ViewModel, a: nat, b: nat, key: string)
      requires a <= b <= |m.children|
      requires forall j :: a <= j < b && !IsEmpty(m.children[j].captureTo) ==> m.children[j].captureTo != key
      ensures (key in Captured(m, b).variables) == (key in Captured(m, a).variables)
      ensures key in Captured(m, a).variables ==> Captured(m, b).variables[key] == Captured(m, a).variables[key]
      decreases b - a
    {
      if a < b {
        KeyUntouched(m, a, b - 1, key);
        OnlyTargetChanges(m, b - 1, key);
      }
    }

    /** A variable no child captures into keeps its value. */
    lemma UncapturedVariableKept(m: ViewModel, key: string)
      requires forall j :: 0 <= j < |m.children| && !IsEmpty(m.children[j].captureTo) ==> m.children[j].captureTo != key
      ensures (key in RenderTree(m).model.variables) == (key in m.variables)
      ensures key in m.variables ==> RenderTree(m).model.variables[key] == m.variables[key]
    {
      KeyUntouched(m, 0, |m.children|, key);
    }

    /** One capturing child taken in by the loop. */
    lemma CapturedStep(m: ViewModel, i: nat)
      requires i < |m.children| && Captured(m, i).stop.None?
      requires !m.children[i].terminate && !IsEmpty(m.children[i].captureTo)
      ensures Captured(m, i + 1)
              == Absorb(Captured(m, i), i, m.children[i], RenderTree(MergeViewModel(m.children[i].template, m.children[i])))
    {
    }

    /** Among overwriting siblings, the last write wins. */
    lemma LastWriteWins(m: ViewModel, j: nat)
      requires j < |m.children|
      requires !m.children[j].append && !IsEmpty(m.children[j].captureTo)
      requires forall l :: j < l < |m.children| && !IsEmpty(m.children[l].captureTo) ==>
                 m.children[l].captureTo != m.children[j].captureTo
      requires RenderTree(m).out.Ok?
      ensures Output(m.children[j]).Ok?
      ensures m.children[j].captureTo in RenderTree(m).model.variables
      ensures RenderTree(m).model.variables[m.children[j].captureTo] == Str(Output(m.children[j]).value)
    {
      var child := m.children[j];
      var n := |m.children|;
      CaptureRanThrough(m, j);
      CaptureRanThrough(m, j + 1);
      CaptureRanThrough(m, n);
      CapturedStep(m, j);
      var r := RenderTree(MergeViewModel(child.template, child));
      assert Output(child) == r.out;
      KeyUntouched(m, j + 1, n, child.captureTo);
    }

    /** The outputs of the children among the first `i` that capture into
      * `key`, concatenated in child order. */
    function AppendedText(m: ViewModel, i: nat, key: string): string
      requires i <= |m.children|
    {
      if i == 0 then ""
      else
        var child := m.children[i - 1];
        var text := if child.captureTo == key && Output(child).Ok? then Output(child).value else "";
        AppendedText(m, i - 1, key) + text
    }

    /** A successful appending child adds its output after the variable's
      * value as a string. */
    lemma AppendStep(m: ViewModel, i: nat)
      requires i < |m.children| && !IsEmpty(m.children[i].captureTo) && m.children[i].append
      requires Captured(m, i + 1).stop.None?
      ensures Captured(m, i).stop.None? && Output(m.children[i]).Ok?
      ensures var key := m.children[i].captureTo;
              StringCast(Lookup(Captured(m, i).variables, key)).Some?
              && Lookup(Captured(m, i + 1).variables, key)
                 == Str(StringCast(Lookup(Captured(m, i).variables, key)).value + Output(m.children[i]).value)
    {
      var child := m.children[i];
      var c := Captured(m, i);
      var r := RenderTree(MergeViewModel(child.template, child));
      assert Captured(m, i + 1) == Absorb(c, i, child, r);
      assert Output(child) == r.out;
    }

    /** A loop that has not stopped had not stopped one child earlier. */
    lemma NotStoppedBefore(m: ViewModel, i: nat)
      requires i < |m.children| && Captured(m, i + 1).stop.None?
      ensures Captured(m, i).stop.None?
    {
    }

    /** A variable no child among the first `i` captures into keeps its value,
      * and nothing is appended to it. */
    lemma {:induction false} UntargetedUpTo(m: ViewModel, i: nat, key: string)
      requires i <= |m.children| && !IsEmpty(key) && !TargetedBefore(m, i, key)
      ensures Lookup(Captured(m, i).variables, key) == Lookup(m.variables, key)
      ensures AppendedText(m, i, key) == ""
    {
      if i > 0 {
        assert m.children[i - 1].captureTo != key;
        UntargetedUpTo(m, i - 1, key);
        OnlyTargetChanges(m, i - 1, key);
      }
    }

    /** Once targeted, the variable holds its prior value as a string followed
      * by the appended outputs. */
    lemma {:induction false} TargetedUpTo(m: ViewModel, i: nat, key: string)
      requires i <= |m.children| && !IsEmpty(key) && TargetedBefore(m, i, key)
      requires forall j :: 0 <= j < |m.children| && m.children[j].captureTo == key ==> m.children[j].append
      requires Captured(m, i).stop.None?
      ensures StringCast(Lookup(m.variables, key)).Some?
      ensures Lookup(Captured(m, i).variables, key)
              == Str(StringCast(Lookup(m.variables, key)).value + AppendedText(m, i, key))
    {
      var child := m.children[i - 1];
      if child.captureTo == key {
        NotStoppedBefore(m, i - 1);
        if TargetedBefore(m, i - 1, key) {
          TargetedUpTo(m, i - 1, key);
        } else {
          UntargetedUpTo(m, i - 1, key);
          AppendStep(m, i - 1);
          assert StringCast(Lookup(m.variables, key)).value + AppendedText(m, i - 1, key)
                 == StringCast(Lookup(m.variables, key)).value;
        }
        TargetedHit(m, i - 1, key, StringCast(Lookup(m.variables, key)).value);
      } else {
        NotStoppedBefore(m, i - 1);
        OnlyTargetChanges(m, i - 1, key);
        TargetedUpTo(m, i - 1, key);
        assert AppendedText(m, i, key) == AppendedText(m, i - 1, key);
      }
    }

    /** The step of `TargetedUpTo` at a child appending into `key`. */
    lemma TargetedHit(m: ViewModel, i: nat, key: string, orig: string)
      requires i < |m.children| && !IsEmpty(key) && m.children[i].captureTo == key && m.children[i].append
      requires Captured(m, i + 1).stop.None?
      requires StringCast(Lookup(Captured(m, i).variables, key)) == Some(orig + AppendedText(m, i, key))
      ensures Lookup(Captured(m, i + 1).variables, key) == Str(orig + AppendedText(m, i + 1, key))
    {
      AppendStep(m, i);
      var text := Output(m.children[i]).value;
      assert AppendedText(m, i + 1, key) == AppendedText(m, i, key) + text;
      assert (orig + AppendedText(m, i, key)) + text == orig + AppendedText(m, i + 1, key);
    }

    /** Appending children concatenate their outputs onto the variable in
      * child order, an unset variable counting as "". */
    lemma AppendsInChildOrder(m: ViewModel, key: string)
      requires !IsEmpty(key)
      requires forall j :: 0 <= j < |m.children| && m.children[j].captureTo == key ==> m.children[j].append
      requires TargetedBefore(m, |m.children|, key)
      requires RenderTree(m).out.Ok?
      ensures StringCast(Lookup(m.variables, key)).Some?
      ensures Lookup(RenderTree(m).model.variables, key)
              == Str(StringCast(Lookup(m.variables, key)).value + AppendedText(m, |m.children|, key))
    {
      CaptureRanThrough(m, |m.children|);
      TargetedUpTo(m, |m.children|, key);
    }

    /** Two appending children and an unset variable: the variable ends as
      * the first child's output followed by the second's. */
    lemma TwoAppendsConcatenate(m: ViewModel, key: string)
      requires !IsEmpty(key) && key !in m.variables && |m.children| == 2
      requires m.children[0].captureTo == key && m.children[0].append
      requires m.children[1].captureTo == key && m.children[1].append
      requires RenderTree(m).out.Ok?
      ensures Output(m.children[0]).Ok? && Output(m.children[1]).Ok?
      ensures Lookup(RenderTree(m).model.variables, key)
              == Str(Output(m.children[0]).value + Output(m.children[1]).value)
    {
      assert m.children[0].captureTo == key;
      assert TargetedBefore(m, 2, key);
      AppendsInChildOrder(m, key);
      ChildSucceeded(m, 0);
      ChildSucceeded(m, 1);
      assert AppendedText(m, 1, key) == Output(m.children[0]).value;
      assert AppendedText(m, 2, key) == Output(m.children[0]).value + Output(m.children[1]).value;
    }

    /** In a successful render, every capturing child rendered successfully. */
    lemma ChildSucceeded(m: ViewModel, j: nat)
      requires j < |m.children| && !IsEmpty(m.children[j].captureTo)
      requires RenderTree(m).out.Ok?
      ensures Output(m.children[j]).Ok?
    {
      if m.children[j].terminate {
        TerminalChildFails(m, j);
      }
      CaptureRanThrough(m, j);
      CaptureRanThrough(m, j + 1);
      CapturedStep(m, j);
    }

    // -------------------------------------------------------------------
    // Properties of the composition

    /** A `layout` variable that is exactly `false` keeps the page unwrapped,
      * even with a default layout configured. */
    lemma LayoutFalseSkipsLayout(name: string, params: Params)
      requires Lookup(Initial(name, params).variables, "layout") == Bool(false)
      ensures ToRender(name, params) == Initial(name, params)
    {
    }

    /** Unset, null, 0 and "" all go through `prepareLayout`. */
    lemma FalsyValuesStillUseLayout(vm: ViewModel)
      requires Lookup(vm.variables, "layout") in {Null, Int(0), Str(""), Str("0")}
      ensures UsesLayout(vm)
      ensures SelectLayout(Lookup(vm.variables, "layout")) == layout
    {
    }

    /** Without a layout, `prepareLayout` returns the page as it is. */
    lemma NoLayoutKeepsPage(vm: ViewModel)
      requires SelectLayout(Lookup(vm.variables, "layout")).None?
      ensures PrepareLayout(vm) == vm
    {
    }

    /**
     * With a layout, the result is the chosen layout with the page added as
     * its last child; the page's own `layout` variable is cleared exactly
     * when it supplied the layout.
     */
    lemma LayoutWrapsPage(vm: ViewModel)
      requires SelectLayout(Lookup(vm.variables, "layout")).Some?
      ensures var l := SelectLayout(Lookup(vm.variables, "layout")).value;
              var r := PrepareLayout(vm);
              && r.template == l.template
              && r.children == l.children + [r.children[|r.children| - 1]]
              && r.captureTo == l.captureTo && r.append == l.append && r.terminate == l.terminate
              && (Provides(Lookup(vm.variables, "layout")) ==>
                    r.children[|r.children| - 1] == vm.(variables := vm.variables["layout" := Null]))
              && (!Provides(Lookup(vm.variables, "layout")) ==> r.children[|r.children| - 1] == vm)
    {
    }

    /** A non-empty string layout variable wins over the configured default. */
    lemma StringLayoutWins(vm: ViewModel, s: string)
      requires Lookup(vm.variables, "layout") == Str(s) && !IsEmpty(s)
      ensures PrepareLayout(vm).template == s
      ensures PrepareLayout(vm).children == prototypes.viewModel.children
                                            + [vm.(variables := vm.variables["layout" := Null])]
    {
    }

    /** A view-model layout variable is used as the layout. */
    lemma ModelLayoutUsed(vm: ViewModel, l: ViewModel)
      requires Lookup(vm.variables, "layout") == Model(l)
      ensures PrepareLayout(vm).template == l.template
      ensures PrepareLayout(vm).children == l.children + [vm.(variables := vm.variables["layout" := Null])]
    {
    }

    /** Otherwise the configured default is used, and the page keeps its
      * `layout` variable. */
    lemma DefaultLayoutOtherwise(vm: ViewModel)
      requires !Provides(Lookup(vm.variables, "layout")) && layout.Some?
      ensures PrepareLayout(vm).template == layout.value.template
      ensures PrepareLayout(vm).children == layout.value.children + [vm]
    {
    }

    /** In htmx mode, array parameters produce a body whose new children are
      * the header, the footer and the page, in that order. */
    lemma HtmxWrapsPage(name: string, vars: map<string, Value>)
      requires enableHtmx && prototypes.body.children == []
      ensures Initial(name, ArrayParams(vars)).children
              == [prototypes.header, prototypes.footer, Page(name, vars)]
    {
    }

    /** A view model passed as parameters is never wrapped. */
    lemma ModelParamsNotWrapped(name: string, m: ViewModel)
      ensures Initial(name, ModelParams(m)) == MergeViewModel(name, m)
      ensures Initial(name, ModelParams(m)).children == m.children
    {
    }

    /** In htmx mode the layout gate reads the body model, so a `layout`
      * parameter of the page does not reach it. */
    lemma HtmxGateReadsBody(name: string, vars: map<string, Value>)
      requires enableHtmx
      ensures UsesLayout(Initial(name, ArrayParams(vars))) == UsesLayout(prototypes.body)
    {
    }
  }
}
