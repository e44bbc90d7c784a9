/**
 * The three request handlers of the wiki (`viewHandler`, `editHandler`,
 * `saveHandler`) and `renderTemplate`. A handler's effect on the client is
 * one `Response`; its effect on the disk is the page store's.
 */
module Handlers {
  import opened Wrappers
  import opened Paths
  import opened Pages

  const StatusFound: int := 302
  const StatusInternalServerError: int := 500

  /** What a request handler needs of `*http.Request`: its path and parsed form. */
  datatype Request = Request(path: string, form: map<string, seq<seq<byte>>>)

  /**
   * The response a handler writes: `http.NotFound`, `http.Redirect` to a
   * location, a template executed on a page, or `http.Error` with a status.
   */
  datatype Response =
    | NotFound
    | Redirect(status: int, location: string)
    | Render(template: string, page: Page)
    | ServerError(status: int)

  /** `r.FormValue(key)`: the first value given for `key`, empty when there is none. */
  function FormValue(form: map<string, seq<seq<byte>>>, key: string): (v: seq<byte>)
    ensures key !in form || form[key] == [] ==> v == []
    ensures key in form && form[key] != [] ==> v == form[key][0]
  {
    if key in form && |form[key]| > 0 then form[key][0] else []
  }

  /**
   * `renderTemplate(w, name, p)`: template `name.html` executed on `p`, or a
   * 500 when the execution fails.
   */
  function RenderTemplate(name: string, p: Page, execFault: bool): (r: Response)
    ensures r.Render? <==> !execFault
    ensures r.Render? ==> r.template == name && r.page == p
    ensures r.ServerError? ==> r.status == StatusInternalServerError
    ensures execFault ==> r == ServerError(StatusInternalServerError)
  {
    if execFault then ServerError(StatusInternalServerError) else Render(name, p)
  }

  /** The response of `viewHandler` on the directory `files`. */
  function ViewResponse(files: Files, path: string, readFault: bool, execFault: bool): (r: Response)
    ensures r == NotFound <==> GetTitle(path).Failure?
    ensures r.Render? ==> r.template == "view" && GetTitle(path) == Success(r.page.title)
    ensures r.Render? ==> LoadFrom(files, r.page.title, readFault) == Success(r.page)
    ensures r.Redirect? <==> GetTitle(path).Success? && LoadFrom(files, GetTitle(path).value, readFault).Failure?
    ensures r.Redirect? ==> r == Redirect(StatusFound, Route("edit", GetTitle(path).value))
    ensures r.Render? <==> GetTitle(path).Success? && LoadFrom(files, GetTitle(path).value, readFault).Success? && !execFault
    ensures r.ServerError? ==> r == ServerError(StatusInternalServerError)
  {
    match GetTitle(path)
    case Failure(_) => NotFound
    case Success(title) =>
      match LoadFrom(files, title, readFault)
      case Failure(_) => Redirect(StatusFound, "/edit/" + title)
      case Success(p) => RenderTemplate("view", p, execFault)
  }

  /** The response of `editHandler` on the directory `files`. */
  function EditResponse(files: Files, path: string, readFault: bool, execFault: bool): (r: Response)
    ensures r == NotFound <==> GetTitle(path).Failure?
    ensures !r.Redirect?
    ensures r.Render? ==> r.template == "edit" && GetTitle(path) == Success(r.page.title)
    ensures r.Render? ==> r.page.body == if LoadFrom(files, r.page.title, readFault).Success? then files[FileName(r.page.title)] else []
    ensures r.Render? <==> GetTitle(path).Success? && !execFault
    ensures r.ServerError? ==> r == ServerError(StatusInternalServerError)
  {
    match GetTitle(path)
    case Failure(_) => NotFound
    case Success(title) =>
      var p := match LoadFrom(files, title, readFault)
        case Failure(_) => Page(title, [])
        case Success(p) => p;
      RenderTemplate("edit", p, execFault)
  }

  /** The directory after `saveHandler`: only a valid path writes. */
  function FilesAfterSaveRequest(files: Files, req: Request, fault: WriteFault): (files': Files)
    ensures GetTitle(req.path).Failure? ==> files' == files
    ensures forall n :: n in files && (GetTitle(req.path).Failure? || n != FileName(GetTitle(req.path).value)) ==>
      n in files' && files'[n] == files[n]
    ensures files'.Keys <= files.Keys + (if GetTitle(req.path).Success? then {FileName(GetTitle(req.path).value)} else {})
    ensures GetTitle(req.path).Success? && fault == NoFault ==>
      LoadFrom(files', GetTitle(req.path).value, false) == Success(Page(GetTitle(req.path).value, FormValue(req.form, "body")))
  {
    match GetTitle(req.path)
    case Failure(_) => files
    case Success(title) => AfterSave(files, Page(title, FormValue(req.form, "body")), fault)
  }

  /** The response of `saveHandler`. */
  function SaveResponse(path: string, fault: WriteFault): (r: Response)
    ensures r == NotFound <==> GetTitle(path).Failure?
    ensures r.ServerError? <==> GetTitle(path).Success? && fault != NoFault
    ensures !r.Render?
    ensures r.Redirect? ==> r == Redirect(StatusFound, Route("view", GetTitle(path).value))
    ensures r.ServerError? ==> r.status == StatusInternalServerError
  {
    match GetTitle(path)
    case Failure(_) => NotFound
    case Success(title) =>
      if SaveError(fault).Some? then ServerError(StatusInternalServerError)
      else Redirect(StatusFound, "/view/" + title)
  }

  /** `viewHandler`: validate the path, load the page, redirect or render. */
  method ViewHandler(store: PageStore, req: Request, readFault: bool, execFault: bool) returns (resp: Response)
    ensures resp == ViewResponse(store.files, req.path, readFault, execFault)
  {
    var title := GetTitle(req.path);
    if title.Failure? {
      return NotFound;
    }
    var p := store.LoadPage(title.value, readFault);
    if p.Failure? {
      return Redirect(StatusFound, "/edit/" + title.value);
    }
    resp := RenderTemplate("view", p.value, execFault);
  }

  /** `editHandler`: validate the path, load the page or start a blank one, render. */
  method EditHandler(store: PageStore, req: Request, readFault: bool, execFault: bool) returns (resp: Response)
    ensures resp == EditResponse(store.files, req.path, readFault, execFault)
  {
    var title := GetTitle(req.path);
    if title.Failure? {
      return NotFound;
    }
    var loaded := store.LoadPage(title.value, readFault);
    var p := if loaded.Failure? then Page(title.value, []) else loaded.value;
    resp := RenderTemplate("edit", p, execFault);
  }

  /** `saveHandler`: validate the path, save the form's body, report or redirect. */
  method SaveHandler(store: PageStore, req: Request, fault: WriteFault) returns (resp: Response)
    modifies store
    ensures store.files == FilesAfterSaveRequest(old(store.files), req, fault)
    ensures resp == SaveResponse(req.path, fault)
  {
    var title := GetTitle(req.path);
    if title.Failure? {
      return NotFound;
    }
    var body := FormValue(req.form, "body");
    var p := Page(title.value, body);
    var err := store.Save(p, fault);
    if err.Some? {
      return ServerError(StatusInternalServerError);
    }
    resp := Redirect(StatusFound, "/view/" + title.value);
  }

  /**
   * A path that fails validation gets a 404 from every handler and touches
   * no file.
   */
  lemma InvalidPathIsNotFound(files: Files, req: Request, readFault: bool, execFault: bool, fault: WriteFault)
    requires !IsValidPath(req.path)
    ensures ViewResponse(files, req.path, readFault, execFault) == NotFound
    ensures EditResponse(files, req.path, readFault, execFault) == NotFound
    ensures SaveResponse(req.path, fault) == NotFound
    ensures FilesAfterSaveRequest(files, req, fault) == files
  {
  }

  /**
   * Viewing a page that has no file redirects to the edit route of the same
   * title, and that route is accepted with that title.
   */
  lemma ViewMissingRedirectsToEdit(files: Files, verb: string, title: string, readFault: bool, execFault: bool)
    requires verb in Verbs && IsTitle(title) && FileName(title) !in files
    ensures ViewResponse(files, Route(verb, title), readFault, execFault) == Redirect(StatusFound, Route("edit", title))
    ensures GetTitle(Route("edit", title)) == Success(title)
  {
    GetTitleOfRoute(verb, title);
    GetTitleOfRoute("edit", title);
  }

  /** Viewing a stored page renders exactly its stored body under its title. */
  lemma ViewRendersStoredPage(files: Files, verb: string, title: string)
    requires verb in Verbs && IsTitle(title) && FileName(title) in files
    ensures ViewResponse(files, Route(verb, title), false, false) == Render("view", Page(title, files[FileName(title)]))
  {
    GetTitleOfRoute(verb, title);
  }

  /** Editing a stored page renders exactly its stored body under its title. */
  lemma EditRendersStoredPage(files: Files, verb: string, title: string)
    requires verb in Verbs && IsTitle(title) && FileName(title) in files
    ensures EditResponse(files, Route(verb, title), false, false) == Render("edit", Page(title, files[FileName(title)]))
  {
    GetTitleOfRoute(verb, title);
  }

  /** A template that fails to execute turns a view or an edit into a 500. */
  lemma TemplateFailureIsServerError(files: Files, verb: string, title: string, readFault: bool)
    requires verb in Verbs && IsTitle(title)
    ensures EditResponse(files, Route(verb, title), readFault, true) == ServerError(StatusInternalServerError)
    ensures FileName(title) in files && !readFault ==>
      ViewResponse(files, Route(verb, title), readFault, true) == ServerError(StatusInternalServerError)
  {
    GetTitleOfRoute(verb, title);
  }

  /** Editing a page that has no file renders a blank page of that title. */
  lemma EditMissingRendersBlank(files: Files, verb: string, title: string, readFault: bool)
    requires verb in Verbs && IsTitle(title) && FileName(title) !in files
    ensures EditResponse(files, Route(verb, title), readFault, false) == Render("edit", Page(title, []))
  {
    GetTitleOfRoute(verb, title);
  }

  /**
   * A failed save answers 500 and no redirect; the title's file may be left
   * truncated, but no other page changes.
   */
  lemma FailedSaveIsServerError(files: Files, req: Request, fault: WriteFault, other: string, readFault: bool)
    requires IsValidPath(req.path) && fault != NoFault
    requires GetTitle(req.path) != Success(other)
    ensures SaveResponse(req.path, fault) == ServerError(StatusInternalServerError)
    ensures LoadFrom(FilesAfterSaveRequest(files, req, fault), other, readFault) == LoadFrom(files, other, readFault)
  {
    var title := GetTitle(req.path).value;
    SaveLeavesOtherPages(files, Page(title, FormValue(req.form, "body")), fault, other, readFault);
  }

  /**
   * Posting a body to `/save/<title>` stores it and redirects to the view
   * route, which then renders the page with exactly that body.
   */
  lemma SaveThenView(files: Files, title: string, form: map<string, seq<seq<byte>>>)
    requires IsTitle(title)
    ensures var files' := FilesAfterSaveRequest(files, Request(Route("save", title), form), NoFault);
      && SaveResponse(Route("save", title), NoFault) == Redirect(StatusFound, Route("view", title))
      && ViewResponse(files', Route("view", title), false, false) == Render("view", Page(title, FormValue(form, "body")))
  {
    GetTitleOfRoute("save", title);
    GetTitleOfRoute("view", title);
    LoadAfterSave(files, Page(title, FormValue(form, "body")));
  }

  /** The concrete request sequence: save "Hello World" as Test, then view it. */
  method SaveThenViewTest(store: PageStore) returns (saved: Response, viewed: Response)
    modifies store
    ensures saved == Redirect(StatusFound, "/view/Test")
    ensures viewed == Render("view", Page("Test", HelloWorld))
  {
    var form := map["body" := [HelloWorld]];
    assert "/save/Test" == Route("save", "Test") && "/view/Test" == Route("view", "Test");
    assert FormValue(form, "body") == HelloWorld;
    SaveThenView(store.files, "Test", form);
    saved := SaveHandler(store, Request("/save/Test", form), NoFault);
    viewed := ViewHandler(store, Request("/view/Test", map[]), false, false);
  }

  /** The bytes of "Hello World". */
  const HelloWorld: seq<byte> := [72, 101, 108, 108, 111, 32, 87, 111, 114, 108, 100]
}
