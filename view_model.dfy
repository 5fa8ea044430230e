/**
 * `ViewModel` (src/view_model.rs): what a page handler hands to the
 * framework — a template, optional redirect and toast, and the template
 * data — and how it becomes an HTTP response.
 */
module Views {
  import opened Wrappers
  import Errors

  /** A `serde_json::Value`. */
  datatype Json =
    | JNull
    | JBool(b: bool)
    | JNumber(n: int)
    | JString(s: string)
    | JArray(items: seq<Json>)
    | JObject(fields: map<string, Json>)

  /** What the handler can see of the request: the `Htmx` extension (absent,
      or present with its `is_htmx` flag) and whether the application context
      is registered. */
  datatype Request = Request(htmx: Option<bool>, hasAppContext: bool)

  datatype Header =
    | ContentType(mime: string)
    | Toast(message: string)            // X-toast-message
    | HxRedirect(url: string)           // set by `Htmx::redirect`
    | HxLocation(path: string, target: string)  // set by `Htmx::redirect_with_swap`
    | Location(url: string)

  datatype Body = Empty | Text(text: string) | ErrorJson(error: Errors.Error)

  datatype Response = Response(status: nat, headers: seq<Header>, body: Body)

  /** The template data once the request flags are added. */
  function RenderData(data: map<string, Json>, htmx: Option<bool>, version: string): (d: map<string, Json>)
    ensures d.Keys == data.Keys + {"version"} + (if htmx.Some? then {"is_htmx"} else {})
    ensures d["version"] == JString(version)
    ensures htmx.Some? ==> d["is_htmx"] == JBool(htmx.value)
    ensures forall k :: k in data && k != "version" && k != "is_htmx" ==> d[k] == data[k]
  {
    var withFlag := if htmx.Some? then data["is_htmx" := JBool(htmx.value)] else data;
    withFlag["version" := JString(version)]
  }

  class ViewModel {
    var templateName: string
    var redirectTo: Option<(string, bool)>
    var toastMessage: Option<string>
    var data: map<string, Json>

    /** `Default::default`: no template, layout "layout". */
    constructor Default()
      ensures templateName == "" && redirectTo.None? && toastMessage.None?
      ensures data == map["layout" := JString("layout")]
    {
      templateName := "";
      redirectTo := None;
      toastMessage := None;
      data := map["layout" := JString("layout")];
    }

    constructor WithTemplate(name: string)
      ensures templateName == name && redirectTo.None? && toastMessage.None?
      ensures data == map["layout" := JString("layout")]
    {
      templateName := name;
      redirectTo := None;
      toastMessage := None;
      data := map["layout" := JString("layout")];
    }

    constructor WithTemplateAndLayout(name: string, layout: string)
      ensures templateName == name && redirectTo.None? && toastMessage.None?
      ensures data == map["layout" := JString(layout)]
    {
      templateName := name;
      redirectTo := None;
      toastMessage := None;
      data := map["layout" := JString(layout)];
    }

    /** `set`: stores the serialised value under the key; a value that fails
        to serialise (`None` here) leaves the data as it was. */
    method Set(key: string, value: Option<Json>)
      modifies this`data
      ensures value.Some? ==> data == old(data)[key := value.value]
      ensures value.None? ==> data == old(data)
    {
      if value.Some? {
        data := data[key := value.value];
      }
    }

    method Redirect(to: string, refresh: bool)
      modifies this`redirectTo
      ensures redirectTo == Some((to, refresh))
    {
      redirectTo := Some((to, refresh));
    }

    method Message(message: string)
      modifies this`toastMessage
      ensures toastMessage == Some(message)
    {
      toastMessage := Some(message);
    }

    /** `Responder::respond_to`. `render` stands for the Handlebars registry
        (`None` is a render error); `version` for the crate version. */
    function RespondTo(req: Request, render: (string, map<string, Json>) -> Option<string>, version: string): (r: Response)
      reads this
      ensures redirectTo.Some? ==> r.body == Empty
      ensures r.status in {200, 307, 500}
      ensures r.status == 307 <==> redirectTo.Some? && req.htmx != Some(true)
      ensures redirectTo.Some? && req.htmx != Some(true) ==> r.headers == [Location(redirectTo.value.0)]
      ensures redirectTo.None? && templateName != "" && req.hasAppContext &&
              render(templateName, RenderData(data, req.htmx, version)).Some? ==>
                r.status == 200 && r.body == Text(render(templateName, RenderData(data, req.htmx, version)).value)
      ensures redirectTo.None? && templateName == "" ==> r.status == 200 && r.body == Empty
      ensures redirectTo.None? && templateName != "" && !req.hasAppContext ==>
                r.status == 500 && r.body == Text("Missing AppContext in Actix app data")
      ensures redirectTo.None? && templateName != "" && req.hasAppContext &&
              render(templateName, RenderData(data, req.htmx, version)).None? ==>
                r.status == 500 && r.headers == [ContentType("application/json")] &&
                r.body.ErrorJson? && r.body.error.User? &&
                r.body.error.user.kind == Some("internal_server_error")
    {
      var base := [ContentType("text/html; charset=utf-8")] +
        (if toastMessage.Some? then [Toast(toastMessage.value)] else []);
      if redirectTo.Some? then
        var (url, refresh) := redirectTo.value;
        if req.htmx == Some(true) then
          Response(200, base + [if refresh then HxRedirect(url) else HxLocation(url, "main")], Empty)
        else
          Response(307, [Location(url)], Empty)
      else if templateName == "" then
        Response(200, base, Empty)
      else if !req.hasAppContext then
        Response(500, base, Text("Missing AppContext in Actix app data"))
      else
        match render(templateName, RenderData(data, req.htmx, version))
        case Some(html) => Response(200, base, Text(html))
        case None =>
          var e := Errors.Respond(Errors.Internal("render error"));
          Response(e.status, [ContentType("application/json")], ErrorJson(e.body))
    }

    /** The toast reaches the client on every response built from the page
        response: all of them except a plain (non-htmx) redirect and a render
        failure. */
    lemma ToastDelivery(req: Request, render: (string, map<string, Json>) -> Option<string>, version: string)
      requires toastMessage.Some?
      ensures var r := RespondTo(req, render, version);
        (Toast(toastMessage.value) in r.headers) <==>
          !(redirectTo.Some? && req.htmx != Some(true)) &&
          !(redirectTo.None? && templateName != "" && req.hasAppContext &&
            render(templateName, RenderData(data, req.htmx, version)).None?)
    {
      var r := RespondTo(req, render, version);
      if redirectTo.None? && templateName != "" && req.hasAppContext &&
         render(templateName, RenderData(data, req.htmx, version)).None? {
        assert r.headers == [ContentType("application/json")];
      } else if redirectTo.Some? && req.htmx != Some(true) {
        assert r.headers == [Location(redirectTo.value.0)];
      } else {
        assert r.headers[1] == Toast(toastMessage.value);
      }
    }

    /** An htmx request is redirected by a header on a 200 response: a full
        page load when `refresh` is set, otherwise a swap of the `main`
        element. */
    lemma HtmxRedirect(req: Request, render: (string, map<string, Json>) -> Option<string>, version: string)
      requires redirectTo.Some? && req.htmx == Some(true)
      ensures var r := RespondTo(req, render, version);
        r.status == 200 &&
        (redirectTo.value.1 ==> HxRedirect(redirectTo.value.0) in r.headers) &&
        (!redirectTo.value.1 ==> HxLocation(redirectTo.value.0, "main") in r.headers)
    {
      var r := RespondTo(req, render, version);
      assert r.headers[|r.headers| - 1] in r.headers;
    }
  }
}
