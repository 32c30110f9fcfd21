# axleus-htmx, modelled in Dafny

This project models the core of axleus-htmx. The package makes Mezzio
applications htmx-aware. The model covers four parts:

- **The layout-aware template renderer** (`View.Renderer`):
  - the constructor's layout normalisation, which can fail;
  - how `render` composes the model to render: htmx wrapping of array
    parameters into a body model with header and footer, the `layout`
    gate, and the choice of layout in `prepareLayout`;
  - the depth-first `renderModel`, with the capture-to-variable rules
    (terminal children, empty capture names, append and overwrite);
  - `getPaths`, which flattens the resolver's namespaced path stacks.
- **The request filter** (`HtmxFilter.Filter`): it promotes htmx request
  headers to request attributes.
- **The middleware** (`HtmxMiddleware.HtmxMiddleware.Process`): it injects
  `layout => false` and `htmxConfig` as default template parameters.
- **The response helpers** (`HtmxResponse.HtmxResponse`): they write the
  `HX-Trigger` and `HX-Location` headers.

Module `Php` holds the PHP value semantics the code relies on:

- truthiness;
- `empty()` on strings, where "0" counts as empty;
- the string cast used by `.`;
- array-key normalisation of decimal strings;
- `json_encode` returning false on failure.

View models are values (`Php.ViewModel`). Their variables are a map, and
their children a sequence. An operation that changes a model in place
returns the changed model.

Some collaborators are parameters of the model:

- the template engine (`PhpRenderer::render`): a function returning `None`
  when it raises;
- `mergeParams`/`normalizeParams`;
- the initial state of `new ViewModel()`, `BodyModel`, `HeaderModel` and
  `FooterModel`;
- `json_encode`;
- the X-Forwarded filter;
- the list of htmx header names from `RequestHeaders::toArray`;
- the attribute name `RequestHeaders::HX_Request->value`.

`RenderModel`, `GetPaths` and `Filter` are methods with loops. Each is
proved equal to a specification function (`RenderTree`, `Flatten`,
`Promoted`). The properties of those functions are stated as lemmas.

Places where the code behaves differently from what its documentation
suggests (the model follows the code):

- In htmx mode, `render`'s `layout` gate reads the variables of the
  `BodyModel` wrapper, not those of the page. So a `layout => false` array
  parameter does not reach the gate (`HtmxGateReadsBody`). The same holds
  for the `layout => false` default the middleware adds for all templates:
  it reaches the page through `mergeParams`, not the body. Whether the
  layout is skipped then depends only on the `BodyModel`'s own variables.
- A terminal model below a child that has no capture name is never visited,
  so it raises nothing (`TerminalGrandchildSkipped`).
- The constructor accepts the layout name "0", but a `layout` variable "0"
  counts as empty in `prepareLayout`, so the default layout is used instead
  (`ZeroLayoutAccepted`, `FalsyValuesStillUseLayout`).
- `htmxLocation` writes the URI as a plain string. There is no target or
  JSON form.
- The filter stores the header value "false" as the string "false". That
  value is truthy, so the middleware still disables the layout
  (`StringFalseHeaderDisablesLayout`).

## Model

| member | source | states |
|---|---|---|
| View.NormalizeLayout | src/View/Renderer/Renderer.php:84-96 | rejects the layout exactly when it is not null, not a model and not a non-empty string; a non-empty string becomes a fresh model with that template; a model is kept; null means no layout |
| View.ZeroLayoutAccepted | src/View/Renderer/Renderer.php:84-96 | the layout name "0" is accepted and "" is rejected |
| View.Renderer.New | src/View/Renderer/Renderer.php:64-104 | construction fails with InvalidLayout exactly when the layout is invalid; otherwise the new renderer holds the normalised layout and the given collaborators; the layout defaults to null and htmx to off |
| View.NamespaceOf | src/View/Renderer/Renderer.php:156-162 | the namespace is dropped exactly for integer keys, the default namespace and empty names; otherwise the key's string is kept |
| View.FlattenLength | src/View/Renderer/Renderer.php:154-167 | the flattened list has one entry per stored path |
| View.FlattenSound | src/View/Renderer/Renderer.php:154-167 | every entry of the list is a stored path paired with its key's normalised namespace |
| View.FlattenComplete | src/View/Renderer/Renderer.php:154-167 | every stored path appears in the list with its key's normalised namespace |
| View.FlattenMembers | src/View/Renderer/Renderer.php:154-167 | an entry is in the list if and only if it is some stored path paired with its key's normalised namespace |
| View.EntriesAt | src/View/Renderer/Renderer.php:164-166 | the paths of one namespace keep their order, each paired with the namespace |
| View.GetPaths | src/View/Renderer/Renderer.php:147-170 | the nested loop yields exactly the namespace-by-namespace flattening of the path stacks |
| View.Renderer.MergeViewModel | src/View/Renderer/Renderer.php:291-300 | the template becomes the given name; merged parameters override; other variables stay; children, capture name, append and terminal flags are unchanged |
| View.Renderer.Page | src/View/Renderer/Renderer.php:180-182 | the page model has the given template and the merged parameters as its variables |
| View.Renderer.CreateModel | src/View/Renderer/Renderer.php:178-193 | without htmx the result is the page; with htmx it is the body model with header, footer and page appended in that order |
| View.Renderer.HtmxWrapsPage | src/View/Renderer/Renderer.php:184-190 | in htmx mode, starting from an empty body, the children are exactly header, footer, page |
| View.Renderer.ModelParamsNotWrapped | src/View/Renderer/Renderer.php:122-124 | a model passed as parameters is only merged, never wrapped, and keeps its children |
| View.Renderer.HtmxGateReadsBody | src/View/Renderer/Renderer.php:126 | in htmx mode the layout gate's verdict is the body model's, whatever the page parameters are |
| View.Renderer.UsesLayout | src/View/Renderer/Renderer.php:126 | the gate refuses the layout exactly when the model has a `layout` variable that is exactly false |
| View.Renderer.LayoutFalseSkipsLayout | src/View/Renderer/Renderer.php:126-129 | a `layout` variable that is exactly false leaves the model unwrapped |
| View.Renderer.FalsyValuesStillUseLayout | src/View/Renderer/Renderer.php:126-129 | unset or null, 0, "" and "0" pass the gate, and `prepareLayout` then uses the configured default |
| View.Renderer.NoLayoutKeepsPage | src/View/Renderer/Renderer.php:334-340 | with no layout found, `prepareLayout` returns the page unchanged |
| View.Renderer.SelectLayout | src/View/Renderer/Renderer.php:322-332 | a non-empty string names a fresh layout, a model is the layout itself, anything else falls back to the configured layout; no layout exactly when nothing is provided and none is configured |
| View.Renderer.PrepareLayout | src/View/Renderer/Renderer.php:320-341 | without a layout the page is returned; with one, the result has the layout's template, flags and old children, the page (with `layout` nulled exactly when it chose the layout) as its new last child, and the layout's variables merged with its parameters |
| View.Renderer.LayoutWrapsPage | src/View/Renderer/Renderer.php:320-341 | with a layout, the result keeps the layout's template and flags and has the page as its last added child; the page's `layout` variable is nulled exactly when it chose the layout |
| View.Renderer.StringLayoutWins | src/View/Renderer/Renderer.php:323-326 | a non-empty string `layout` variable wins over the default: a fresh model with that template wraps the page with `layout` nulled |
| View.Renderer.ModelLayoutUsed | src/View/Renderer/Renderer.php:327-329 | a model `layout` variable is the layout, and it wraps the page with `layout` nulled |
| View.Renderer.DefaultLayoutOtherwise | src/View/Renderer/Renderer.php:330-332 | otherwise the configured layout wraps the unchanged page |
| View.Renderer.RenderTemplate | src/View/Renderer/Renderer.php:237 | the output is the engine's text when it renders, and TemplateFailed exactly when it does not |
| View.Renderer.Absorb | src/View/Renderer/Renderer.php:226-234 | the rendered child replaces the child in place; a failed child stops the loop with its error and the variables unchanged; an overwriting child sets the variable to its output; an appending child sets it to the prior value cast to a string followed by its output, or stops with NotAString when the prior value is an object |
| View.Renderer.RenderModel | src/View/Renderer/Renderer.php:200-238 | the loop-and-recursion rendering returns exactly the outcome and final model of the specification `RenderTree` |
| View.Renderer.Render | src/View/Renderer/Renderer.php:120-132 | `render` is the rendering of the composed model (merge or create, then the layout gate and `prepareLayout`); the parameters default to an empty array |
| View.Renderer.CaptureStops | src/View/Renderer/Renderer.php:209-212 | once rendering has failed, the remaining children change nothing |
| View.Renderer.CaptureRanThrough | src/View/Renderer/Renderer.php:209-235 | a successful render went through every child without failing |
| View.Renderer.OwnVariablesWithoutCaptures | src/View/Renderer/Renderer.php:214-217 | with no terminal and no capturing child, the model is rendered with its own variables and comes back unchanged |
| View.Renderer.NothingCapturedUpTo | src/View/Renderer/Renderer.php:214-217 | children that neither terminate nor capture leave the loop state as it started |
| View.Renderer.TerminalChildFails | src/View/Renderer/Renderer.php:210-212 | a terminal child makes the render fail; as the first failure it is TerminalChild, and the parent holds its earlier siblings' captures |
| View.Renderer.TerminalGrandchildSkipped | src/View/Renderer/Renderer.php:214-217 | a child that is neither terminal nor capturing leaves the loop state exactly as it was, whatever its own children are, terminal grandchildren included |
| View.Renderer.KeyUntouched | src/View/Renderer/Renderer.php:228-234 | children that do not capture into a variable leave its presence and value unchanged |
| View.Renderer.OnlyTargetChanges | src/View/Renderer/Renderer.php:209-235 | one child changes no variable except the one it captures into |
| View.Renderer.AbsorbOnlyTarget | src/View/Renderer/Renderer.php:228-234 | taking in a child's output changes no variable but the capture target |
| View.Renderer.UncapturedVariableKept | src/View/Renderer/Renderer.php:228-234 | a variable no child captures into keeps its value through the render |
| View.Renderer.CapturedStep | src/View/Renderer/Renderer.php:219-234 | a capturing, non-terminal child is merged, rendered, and its outcome absorbed |
| View.Renderer.LastWriteWins | src/View/Renderer/Renderer.php:234 | after a successful render, an overwriting child's output is the variable's value unless a later sibling captures into it |
| View.Renderer.AppendStep | src/View/Renderer/Renderer.php:228-232 | an appending child that succeeds adds its output after the variable's string value |
| View.Renderer.UntargetedUpTo | src/View/Renderer/Renderer.php:228-232 | while no child among the first i captures into a variable, it keeps its value and nothing is appended to it |
| View.Renderer.TargetedUpTo | src/View/Renderer/Renderer.php:228-232 | once some child among the first i appends into a variable, it holds its prior value as a string followed by the appending children's outputs in order |
| View.Renderer.AppendsInChildOrder | src/View/Renderer/Renderer.php:228-232 | after a successful render, the variable is its prior value as a string followed by every appending child's output in child order |
| View.Renderer.TwoAppendsConcatenate | src/View/Renderer/Renderer.php:228-232 | two appending children into an unset variable leave the first output followed by the second |
| View.Renderer.ChildSucceeded | src/View/Renderer/Renderer.php:226 | in a successful render every capturing child rendered successfully |
| Php.Lookup | src/View/Renderer/Renderer.php:126 | an absent variable reads as null, a present one as its value |
| Php.Truthy | src/Middleware/HtmxMiddleware.php:27-36 | a value is falsy exactly when it is null, false, 0, "", "0" or the empty array |
| Php.StringCast | src/View/Renderer/Renderer.php:229-230 | the `.` cast fails exactly on objects; null casts to "", true to "1" and false to "", an integer to its decimal numeral, an array to "Array", and a string to itself |
| Php.ArrayKey | src/HtmxTriggerTrait.php:19 | a canonical decimal string (no sign, no leading zero) up to PHP_INT_MAX becomes that integer key; "-" followed by such a string without leading zero, down to -PHP_INT_MAX-1, becomes the negative integer key; integer keys lie in the signed 64-bit range; every other string stays a string key |
| Php.ArrayKeyRoundTrip | src/HtmxTriggerTrait.php:19 | the array key of a string prints back to that string, whether it became an integer key or stayed a string |
| Php.ArrayKeyInjective | src/HtmxTriggerTrait.php:19 | distinct strings become distinct array keys |
| Php.JsonEncode | src/Middleware/HtmxMiddleware.php:40 | the result is the encoder's text when encoding succeeds, and false exactly when it fails |
| Http.Attribute | src/Middleware/HtmxMiddleware.php:27 | `getAttribute` yields the stored value, or the default when the attribute is absent |
| HtmxFilter.AttributeValue | src/Request/HtmxFilter.php:29 | the first header value "true" becomes boolean true, any other first value stays a string |
| HtmxFilter.Promoted | src/Request/HtmxFilter.php:25-31 | exactly the headers named in the htmx list become attributes with their converted values; other attributes stay |
| HtmxFilter.PromotedAdd | src/Request/HtmxFilter.php:25-31 | taking one more header in adds or replaces only that header's attribute, and only for an htmx name |
| HtmxFilter.Filter | src/Request/HtmxFilter.php:14-35 | whatever order the loop takes the headers in, the result is the forwarded request with the htmx headers promoted |
| HtmxFilter.MixedCaseNotPromoted | src/Request/HtmxFilter.php:20-26 | with a lower-cased list, a header name with an upper-case letter is never promoted |
| HtmxFilter.OnlyTrueBecomesBoolean | src/Request/HtmxFilter.php:29 | "true" gives true, while "false" and "TRUE" stay strings |
| HtmxMiddleware.WithDefault | src/Middleware/HtmxMiddleware.php:28-32 | `addDefaultParam` sets exactly one template's parameter and leaves every other entry |
| HtmxMiddleware.TemplateDefaults.AddDefaultParam | src/Middleware/HtmxMiddleware.php:28-32 | the defaults table becomes `WithDefault` of the old one: only the given template's parameter is set |
| HtmxMiddleware.DefaultsAfter | src/Middleware/HtmxMiddleware.php:27-42 | `layout => false` for all templates exactly when the htmx-request attribute is truthy; `htmxConfig` is the encoded `config` exactly when `enable` is truthy; every other entry unchanged |
| HtmxMiddleware.HtmxMiddleware.Process | src/Middleware/HtmxMiddleware.php:25-45 | the renderer's defaults change as `DefaultsAfter` says, and the handler's response to the unchanged request is returned |
| HtmxMiddleware.AbsentAttributeAddsNothing | src/Middleware/HtmxMiddleware.php:27 | without the attribute, the layout default is left as it was |
| HtmxMiddleware.InjectionsIndependent | src/Middleware/HtmxMiddleware.php:27-42 | for any two configurations the layout entry is the same, and for any two htmx-request values the `htmxConfig` entry is the same |
| HtmxMiddleware.StringFalseHeaderDisablesLayout | src/Request/HtmxFilter.php:29 | a filtered `hx-request: false` header still makes the middleware disable the layout |
| HtmxResponse.EventKey | src/HtmxTriggerTrait.php:17-19 | a null event is the key "", otherwise the event name's normalised array key |
| HtmxResponse.WithTrigger | src/HtmxTriggerTrait.php:15-20 | `HX-Trigger` holds the encoding of the one-entry array from event to data, or false; no other header changes |
| HtmxResponse.WithLocation | src/HtmxResponseTrait.php:13-16 | `HX-Location` holds the URI; no other header changes |
| HtmxResponse.HtmxResponse.HtmxTrigger | src/HtmxTriggerTrait.php:15-20 | the header table becomes `WithTrigger` of the old one, with "systemMessage" as the default event |
| HtmxResponse.HtmxResponse.HtmxLocation | src/HtmxResponseTrait.php:13-16 | the header table becomes `WithLocation` of the old one |
| HtmxResponse.DefaultEventKey | src/HtmxTriggerTrait.php:13 | the default event "systemMessage" is a string key |
| HtmxResponse.NullEventIsEmptyName | src/HtmxTriggerTrait.php:17-19 | a null event and the event "" give the same key |
| HtmxResponse.NumericEventBecomesIntKey | src/HtmxTriggerTrait.php:19 | the event "42" becomes the integer key 42 |
| HtmxResponse.EventNamesDistinct | src/HtmxTriggerTrait.php:19 | distinct event names give distinct keys |
| HtmxResponse.LastTriggerWins | src/HtmxTriggerTrait.php:19 | a second trigger replaces the first: the header only ever carries one event |
| HtmxResponse.LastLocationWins | src/HtmxResponseTrait.php:15 | a second location replaces the first, and repeating one changes nothing |
| HtmxResponse.TriggerAndLocationCommute | src/HtmxResponseTrait.php:13-16 | setting a trigger and a location gives the same headers in either order |

## Left out

- RendererFactory, ConfigProvider and RedirectResponse (and its tests): they are wiring and context, not part of this model.
- Resolver plumbing in the constructor (choosing or attaching the aggregate and namespaced resolvers), `setDefaultSuffix` and `addPath`: they configure Laminas objects that are not part of this model. `getPaths` takes the resolver's path stacks as input, in the order the resolver yields them.
- The template engine, `mergeParams`/`normalizeParams`, `json_encode`, the X-Forwarded filter and `RequestHeaders::toArray` are not modelled. They appear as function or value parameters.
- View models are values. Aliasing is not captured: for example, a layout model passed in a `layout` variable and also used elsewhere gaining a child. Nor are `clone` depth or the `$child !== $root` identity test with its `setRoot` call on the view-model helper, which is plugin state of the engine.
- `render` parameters are an array or a view model. Other objects, and traversables converted by `normalizeParams`, are covered only through the `mergeParams` parameter.
- Floats, resources and objects other than view models are not among the PHP values, so their string casts and truthiness are not modelled.
- View.Renderer.MergeViewModel: `Laminas\View\Model\ViewModel::setVariables` is taken to merge the new variables into the existing ones (its default `$overwrite = false`), the new values winning; `PrepareLayout` uses the same form. The ArrayAccess and `__get` behaviour of Laminas models is otherwise not modelled.
- `$enableHtmx` is nullable in the source. It is a plain boolean here, with null modelled as false.
- HtmxResponse.HtmxResponse: the traits write into the response's raw `headers` array only. Diactoros's `headerNames` index and the `string[]` shape of header values are not modelled.
- HtmxResponse.HX_TRIGGER, HtmxResponse.HX_LOCATION: the values "HX-Trigger" and "HX-Location" are assumed for the `ResponseHeaders` enum, which is not part of this model. `TriggerAndLocationCommute` relies only on the two names being distinct.
- HtmxMiddleware.HtmxMiddleware.Process: the attribute name it reads (`Htmx::HX_Request->value`) and the lower-cased names the filter writes are both parameters. Whether they agree depends on an enum that is not part of this model.
- HtmxFilter.AttributeValue: a header with no values gives null. PHP would also raise a warning, which is not modelled.
- Exceptions other than the renderer's own, and the I/O of rendering templates from disk, are not modelled.
