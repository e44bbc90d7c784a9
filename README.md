# gowiki in Dafny

A model of the small page-editing web service in `wiki.go`: pages are plain
text identified by an alphanumeric title, each stored in the file
`<title>.txt`, and served through three routes — view, edit and save.

The model has four modules:

- `Wrappers` (`wrappers.dfy`): `Option` and `Result`, standing for Go's
  `(value, error)` returns.
- `Paths` (`paths.dfy`): the `validPath` pattern `^/(edit|save|view)/([a-zA-Z0-9]+)$`
  and `getTitle`. The fixed pattern is written as a matcher: a `/verb/` head,
  then a greedy run of `[a-zA-Z0-9]` that must reach the end of the path.
  The matcher is proved equal to an independent description of the pattern's
  language: some verb and some non-empty alphanumeric title, joined as
  `"/" + verb + "/" + title`.
- `Pages` (`pages.dfy`): `Page`, the mapping `title + ".txt"`, `Page.save`
  (`ioutil.WriteFile`) and `loadPage` (`ioutil.ReadFile`). The working
  directory is a `map` from file name to bytes. Pure functions on that map
  specify the class `PageStore`, whose `Save` method updates the map in place.
- `Handlers` (`handlers.dfy`): `renderTemplate`, `viewHandler`, `editHandler`
  and `saveHandler`. Each handler returns its response as one value:
  `NotFound`, `Redirect(302, location)`, `Render(template, page)` or
  `ServerError(500)`.

The operating system and the template engine are outside the model. Their
failures are parameters of the operations that can meet them:

- `WriteFault`: the write succeeds; the file cannot be opened and stays as it
  was; or the file is truncated and only a prefix of the body reaches it.
- `readFault`: the file exists but cannot be read.
- `execFault`: template execution fails.

As written, the handlers take a third `title string` parameter. `getTitle`
overwrites it at once, and `http.HandleFunc` does not accept a handler of
that shape. The file also uses `regexp` and `errors` without importing them.
The model follows the evident intent: each handler takes only the request,
and its title always comes from `getTitle`. A handler validates against all
three verbs, not only its own. For example, the view handler accepts
`/edit/Home`. Route registration would send only `/view/...` paths to it, so
this has no effect in the running server.

## Model

| member | source | states |
|---|---|---|
| Paths.TitleSpan | wiki.go:144 | the greedy `[a-zA-Z0-9]+`: every character before the returned length is alphanumeric, and the character at that length, if any, is not |
| Paths.IsValidPath | wiki.go:144 | the language of the pattern: some verb in {edit, save, view} and some non-empty alphanumeric title joined as `/verb/title`; such a path has `/`, a verb, `/`, then a title from position 6 on |
| Paths.GetTitle | wiki.go:144-153 | succeeds exactly when the path is `/verb/title` with verb in {edit, save, view} and a non-empty alphanumeric title; the returned title is that tail, contains no `/`, `.` or space, and failure is `InvalidPageTitle` |
| Paths.GetTitleOfRoute | wiki.go:144-153 | every `/verb/title` with a valid verb and title is accepted and gives back exactly `title` |
| Paths.RejectsTraversal | wiki.go:144-151 | `/edit/../../etc/passwd` is rejected |
| Paths.RejectsEmptyTitle | wiki.go:144-151 | `/view/` (an empty title) is rejected |
| Paths.RejectsExtraSegment | wiki.go:144-151 | `/view/a/b` (a title over two segments) is rejected |
| Paths.RejectsSpace | wiki.go:144-151 | `/view/My Page` (a title with a space) is rejected |
| Paths.RejectsUnknownVerb | wiki.go:144-151 | `/delete/Home` (a verb outside edit, save, view) is rejected |
| Paths.AcceptsViewTest | wiki.go:144-153 | `/view/Test` yields the title `Test` |
| Pages.FileName | wiki.go:15 | the file of a page is its title followed by the extension `.txt` |
| Pages.TitleOfFileName | wiki.go:15 | removing the `.txt` extension from a page's file name gives back its title |
| Pages.FileNameInjective | wiki.go:14-28 | two titles share a file name exactly when they are equal |
| Pages.FileNameOfTitleIsPlain | wiki.go:15 | a valid title's file name has no `/`, and its only `.` starts the extension, so the name denotes an entry of the working directory itself |
| Pages.WriteFile | wiki.go:16 | no other file changes whatever the fault; a failed open changes nothing; otherwise the file holds a prefix of the data, and all of it on success |
| Pages.SaveError | wiki.go:14-17 | `save` reports no error exactly when the write succeeded |
| Pages.AfterSave | wiki.go:14-17 | `p.save()` creates at most the page's own file, leaves every other file as it was, and on success stores exactly the body |
| Pages.LoadFrom | wiki.go:26-33 | loading succeeds exactly when the title's file exists and is readable; the page then has the requested title and the file's bytes; a missing file is `NoSuchFile` |
| Pages.LoadAfterSave | wiki.go:14-33 | after a successful save of a page, loading its title returns that page |
| Pages.SaveLeavesOtherPages | wiki.go:14-33 | a save, successful or not, leaves the load of every other title unchanged, in a directory where distinct names are distinct files |
| Pages.SaveOverwrites | wiki.go:14-17 | a successful save erases any earlier content of the title: the result does not depend on what was stored before |
| Pages.PageStore.constructor | wiki.go:28 | the store stands for the working directory that `ReadFile` reads and `WriteFile` writes, and starts with the given contents |
| Pages.PageStore.Save | wiki.go:14-17 | the directory becomes the result of writing the page's body to its file, and the error is the write's |
| Pages.PageStore.LoadPage | wiki.go:26-33 | returns the load of the current directory and changes nothing |
| Handlers.FormValue | wiki.go:125 | the first value of the form field, or empty when the field is missing |
| Handlers.RenderTemplate | wiki.go:55-60 | renders the named template on the page exactly when execution does not fail; a failed execution responds exactly `ServerError(500)` |
| Handlers.ViewResponse | wiki.go:69-80 | not found exactly when the path is invalid; a redirect (302) to `/edit/title` exactly when the title's page cannot be loaded; a render exactly when the page loads and the template executes, and any other response is a 500; a rendered page is the `view` template of the loaded page of the path's title |
| Handlers.EditResponse | wiki.go:97-107 | not found exactly when the path is invalid; never redirects; a render exactly when the path is valid and the template executes, and any other response is a 500; a rendered page is the `edit` template of a page carrying the path's title, with the stored body when it loads and an empty body otherwise |
| Handlers.SaveResponse | wiki.go:120-133 | not found exactly when the path is invalid; a server error, always status 500, exactly when the path is valid and the write failed; a redirect is a 302 to `/view/title`; never renders |
| Handlers.FilesAfterSaveRequest | wiki.go:120-133 | the save request writes nothing for an invalid path; otherwise it touches only the title's file, and after a successful write loading the title gives the form's `body` |
| Handlers.ViewHandler | wiki.go:69-80 | the response is the view decision on the current store, which is not changed |
| Handlers.EditHandler | wiki.go:97-107 | the response is the edit decision on the current store, which is not changed |
| Handlers.SaveHandler | wiki.go:120-133 | the store is written only for a valid path, with the form's `body`, and the response is the save decision |
| Handlers.InvalidPathIsNotFound | wiki.go:69-124 | for an invalid path all three handlers answer 404 and the save handler writes nothing |
| Handlers.ViewMissingRedirectsToEdit | wiki.go:74-78 | viewing a title without a file redirects (302) to `/edit/title`, which is accepted with the same title |
| Handlers.ViewRendersStoredPage | wiki.go:74-79 | viewing a stored title renders `view` with the title and the stored body |
| Handlers.EditRendersStoredPage | wiki.go:102-106 | editing a stored title renders `edit` with the title and the stored body |
| Handlers.TemplateFailureIsServerError | wiki.go:55-60 | a template that fails to execute turns an edit, and a view of a loadable page, into `ServerError(500)` |
| Handlers.EditMissingRendersBlank | wiki.go:102-106 | editing a title without a file renders `edit` with that title and an empty body |
| Handlers.FailedSaveIsServerError | wiki.go:126-131 | a failed save answers 500 without a redirect and leaves every other page unchanged |
| Handlers.SaveThenView | wiki.go:69-133 | saving a body to `/save/title` redirects to `/view/title`, which then renders that page with exactly the saved body |
| Handlers.SaveThenViewTest | wiki.go:69-133 | posting `body=Hello World` to `/save/Test` redirects to `/view/Test`, which renders page `Test` with body `Hello World` |

## Left out

- `main` and route registration (`http.HandleFunc`, `ListenAndServe`): server plumbing. The prefix routing and Go's path cleaning are not modelled.
- Template parsing and execution, including HTML escaping: the template library's internals are not part of this model. Rendering is the outcome `Render(name, page)`, and an execution failure is the `execFault` parameter.
- Real file I/O and the 0600 permission bits: the directory is a map, and I/O faults are parameters.
- File names are compared exactly: the map stands for a case-sensitive directory where each name is a separate regular file. On case-insensitive or Windows file systems, titles that differ only in case share a file (and names such as `NUL` or `CON` denote devices), so `FileNameInjective` and `SaveLeavesOtherPages` describe names, not files.
- The general regular-expression engine: only the one fixed pattern is modelled.
- How `http.Redirect`, `http.NotFound` and `http.Error` write the response; the error message text. The model answers 500 on a template failure; in the server, `ExecuteTemplate` streams into the response, so a failure after output has begun leaves status 200 with the error text appended; form parsing (`FormValue` takes the already parsed form).
- Go strings as UTF-8: paths and titles are sequences of characters. The form's `body` is taken as bytes, so `[]byte(body)` is the identity.
- Concurrent saves to one title: these races belong to the HTTP layer.
- The commented-out earlier versions of `loadPage`, `renderTemplate` and the handlers: they are dead code.
