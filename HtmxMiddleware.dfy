/**
 * The middleware of src/Middleware/HtmxMiddleware.php: for an htmx request
 * it adds the default template parameter `layout => false`, when htmx is
 * enabled in its configuration it adds `htmxConfig`, and then it hands the
 * request to the next handler.
 */
module HtmxMiddleware {
  import opened Wrappers
  import opened Php
  import opened Http
  import HtmxFilter

  /** `TemplateRendererInterface::TEMPLATE_ALL`. */
  const TEMPLATE_ALL: string := "*"

  type Defaults = map<string, map<string, Value>>

  /** The default value of parameter `param` for template `template`, if any. */
  function DefaultOf(defaults: Defaults, template: string, param: string): Option<Value>
  {
    if template in defaults && param in defaults[template] then Some(defaults[template][param]) else None
  }

  /** `addDefaultParam($templateName, $param, $value)` on the default-parameter
    * table: that one entry is set, all others stay. */
  function WithDefault(defaults: Defaults, template: string, param: string, value: Value): (r: Defaults)
    ensures DefaultOf(r, template, param) == Some(value)
    ensures forall t, p :: (t, p) != (template, param) ==> DefaultOf(r, t, p) == DefaultOf(defaults, t, p)
  {
    var entries := if template in defaults then defaults[template] else map[];
    defaults[template := entries[param := value]]
  }

  /** The template renderer's table of default parameters. */
  class TemplateDefaults {
    var defaultParams: Defaults

    constructor (defaultParams: Defaults)
      ensures this.defaultParams == defaultParams
    {
      this.defaultParams := defaultParams;
    }

    method AddDefaultParam(templateName: string, param: string, value: Value)
      modifies this
      ensures defaultParams == WithDefault(old(defaultParams), templateName, param, value)
    {
      defaultParams := WithDefault(defaultParams, templateName, param, value);
    }
  }

  /**
   * The table after `process`: `layout => false` for all templates exactly
   * when the htmx-request attribute is truthy, `htmxConfig` equal to the
   * encoded `config` entry exactly when the `enable` entry is truthy, and
   * every other entry as before.
   */
  function DefaultsAfter(defaults: Defaults, hxRequest: Value, htmxConfig: map<string, Value>,
                         encode: Value -> Option<string>): (r: Defaults)
    ensures Truthy(hxRequest) ==> DefaultOf(r, TEMPLATE_ALL, "layout") == Some(Bool(false))
    ensures !Truthy(hxRequest) ==> DefaultOf(r, TEMPLATE_ALL, "layout") == DefaultOf(defaults, TEMPLATE_ALL, "layout")
    ensures Truthy(Lookup(htmxConfig, "enable")) ==>
              DefaultOf(r, TEMPLATE_ALL, "htmxConfig") == Some(JsonEncode(encode, Lookup(htmxConfig, "config")))
    ensures !Truthy(Lookup(htmxConfig, "enable")) ==>
              DefaultOf(r, TEMPLATE_ALL, "htmxConfig") == DefaultOf(defaults, TEMPLATE_ALL, "htmxConfig")
    ensures forall t, p :: (t, p) != (TEMPLATE_ALL, "layout") && (t, p) != (TEMPLATE_ALL, "htmxConfig") ==>
              DefaultOf(r, t, p) == DefaultOf(defaults, t, p)
  {
    var d := if Truthy(hxRequest) then WithDefault(defaults, TEMPLATE_ALL, "layout", Bool(false)) else defaults;
    if Truthy(Lookup(htmxConfig, "enable")) then
      WithDefault(d, TEMPLATE_ALL, "htmxConfig", JsonEncode(encode, Lookup(htmxConfig, "config")))
    else d
  }

  class HtmxMiddleware {
    const template: TemplateDefaults
    const htmxConfig: map<string, Value>
    /** `json_encode`; `None` where it returns false. */
    const encode: Value -> Option<string>
    /** The attribute name `Htmx::HX_Request->value`. */
    const hxRequest: string

    constructor (template: TemplateDefaults, htmxConfig: map<string, Value>,
                 encode: Value -> Option<string>, hxRequest: string)
      ensures this.template == template && this.htmxConfig == htmxConfig
      ensures this.encode == encode && this.hxRequest == hxRequest
    {
      this.template := template;
      this.htmxConfig := htmxConfig;
      this.encode := encode;
      this.hxRequest := hxRequest;
    }

    /** `process`: the defaults change as `DefaultsAfter` says, and the
      * handler gets the request as it came and its response is returned. */
    method Process<Response>(request: Request, handle: Request -> Response) returns (response: Response)
      modifies template
      ensures template.defaultParams
              == DefaultsAfter(old(template.defaultParams), Attribute(request, hxRequest, Bool(false)), htmxConfig, encode)
      ensures response == handle(request)
    {
      if Truthy(Attribute(request, hxRequest, Bool(false))) {
        template.AddDefaultParam(TEMPLATE_ALL, "layout", Bool(false));
      }
      if Truthy(Lookup(htmxConfig, "enable")) {
        template.AddDefaultParam(TEMPLATE_ALL, "htmxConfig", JsonEncode(encode, Lookup(htmxConfig, "config")));
      }
      response := handle(request);
    }
  }

  /** An absent htmx-request attribute reads as false: no layout entry is added. */
  lemma AbsentAttributeAddsNothing(defaults: Defaults, request: Request, hxRequest: string,
                                   htmxConfig: map<string, Value>, encode: Value -> Option<string>)
    requires hxRequest !in request.attributes
    ensures DefaultOf(DefaultsAfter(defaults, Attribute(request, hxRequest, Bool(false)), htmxConfig, encode),
                      TEMPLATE_ALL, "layout")
            == DefaultOf(defaults, TEMPLATE_ALL, "layout")
  {
  }

  /** The layout entry does not depend on the configuration, nor the
    * `htmxConfig` entry on the request. */
  lemma InjectionsIndependent(defaults: Defaults, hx1: Value, hx2: Value,
                              config1: map<string, Value>, config2: map<string, Value>,
                              encode: Value -> Option<string>)
    ensures DefaultOf(DefaultsAfter(defaults, hx1, config1, encode), TEMPLATE_ALL, "layout")
            == DefaultOf(DefaultsAfter(defaults, hx1, config2, encode), TEMPLATE_ALL, "layout")
    ensures DefaultOf(DefaultsAfter(defaults, hx1, config1, encode), TEMPLATE_ALL, "htmxConfig")
            == DefaultOf(DefaultsAfter(defaults, hx2, config1, encode), TEMPLATE_ALL, "htmxConfig")
  {
  }

  /**
   * An `hx-request: false` header is promoted by the filter to the string
   * "false", which is truthy, so the middleware still adds `layout => false`.
   */
  lemma StringFalseHeaderDisablesLayout(request: Request, htmxHeaders: seq<string>, hxRequest: string,
                                        defaults: Defaults, htmxConfig: map<string, Value>,
                                        encode: Value -> Option<string>)
    requires hxRequest in htmxHeaders
    requires hxRequest in request.headers && request.headers[hxRequest] == ["false"]
    ensures var filtered := request.(attributes := HtmxFilter.Promoted(request.attributes, request.headers,
                                                                       HtmxFilter.HtmxNames(htmxHeaders)));
            DefaultOf(DefaultsAfter(defaults, Attribute(filtered, hxRequest, Bool(false)), htmxConfig, encode),
                      TEMPLATE_ALL, "layout")
            == Some(Bool(false))
  {
    assert hxRequest in HtmxFilter.HtmxNames(htmxHeaders);
  }
}
