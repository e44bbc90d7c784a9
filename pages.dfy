/**
 * The page store of the wiki: `Page`, `Page.save` and `loadPage`. Each page
 * lives in the file `title + ".txt"` of the working directory. The directory
 * is modelled as a map from file name to contents; the faults the operating
 * system may raise are parameters of the operations that can meet them.
 */
module Pages {
  import opened Wrappers
  import opened Paths

  newtype byte = b: int | 0 <= b < 256

  /** A page: its title and the raw bytes of its body. */
  datatype Page = Page(title: string, body: seq<byte>)

  /** The working directory: file name to file contents. */
  type Files = map<string, seq<byte>>

  /** What the store reports when it cannot read or write a page's file. */
  datatype StoreError = NoSuchFile | ReadFailed | WriteFailed

  /**
   * How `ioutil.WriteFile` ends: it writes everything; or it cannot open
   * (create or truncate) the file, which then stays as it was; or the file
   * is truncated and only its first `written` bytes reach it before a write
   * or close error.
   */
  datatype WriteFault = NoFault | OpenFailed | ShortWrite(written: nat)

  const Extension: string := ".txt"

  /** The file that holds the page `title`. */
  function FileName(title: string): (f: string)
    ensures |f| == |title| + |Extension| && f[..|title|] == title && f[|title|..] == Extension
  {
    title + Extension
  }

  /** The title whose page a file holds, if its name ends in `.txt`. */
  function TitleOf(fileName: string): (t: Option<string>)
    ensures t.None? ==> forall title :: fileName != FileName(title)
    ensures t.Some? ==> FileName(t.value) == fileName
  {
    var k := |fileName| - |Extension|;
    if k >= 0 && fileName[k..] == Extension then
      assert fileName == FileName(fileName[..k]);
      Some(fileName[..k])
    else
      None
  }

  /** Reading the title back from a page's file name gives the title. */
  lemma TitleOfFileName(title: string)
    ensures TitleOf(FileName(title)) == Some(title)
  {
    var f := FileName(title);
    assert f[..|title|] == title;
  }

  /** Distinct titles never share a file name. */
  lemma FileNameInjective(a: string, b: string)
    ensures FileName(a) == FileName(b) <==> a == b
  {
    if FileName(a) == FileName(b) {
      TitleOfFileName(a);
      TitleOfFileName(b);
    }
  }

  /**
   * The file of a valid title stays in the working directory: its name has
   * no `/` and its only `.` is the one that starts the extension.
   */
  lemma FileNameOfTitleIsPlain(title: string)
    requires IsTitle(title)
    ensures var f := FileName(title);
      '/' !in f && forall i :: 0 <= i < |f| && f[i] == '.' ==> i == |title|
  {
    var f := FileName(title);
    forall i | 0 <= i < |f|
      ensures f[i] == '/' ==> false
      ensures f[i] == '.' ==> i == |title|
    {
      if i < |title| {
        assert f[i] == title[i] && IsTitleChar(title[i]);
      } else {
        assert f[i] == Extension[i - |title|];
      }
    }
  }

  /**
   * `ioutil.WriteFile(name, data, 0600)` on the directory `files`. Whatever
   * the fault, no other file changes; a write that gets past the open leaves
   * a prefix of `data`, all of it when nothing failed.
   */
  function WriteFile(files: Files, name: string, data: seq<byte>, fault: WriteFault): (files': Files)
    ensures forall n :: n != name ==> (n in files' <==> n in files)
    ensures forall n :: n != name && n in files ==> files'[n] == files[n]
    ensures fault == OpenFailed ==> files' == files
    ensures fault != OpenFailed ==> name in files' && files'[name] <= data
    ensures fault == NoFault ==> files'[name] == data
  {
    match fault
    case NoFault => files[name := data]
    case OpenFailed => files
    case ShortWrite(written) =>
      files[name := data[..if written < |data| then written else |data|]]
  }

  /** The error `Page.save` returns: none exactly when the write succeeded. */
  function SaveError(fault: WriteFault): (err: Option<StoreError>)
    ensures err.None? <==> fault == NoFault
  {
    if fault == NoFault then None else Some(WriteFailed)
  }

  /** The directory after `p.save()`. */
  function AfterSave(files: Files, p: Page, fault: WriteFault): (files': Files)
    ensures files'.Keys <= files.Keys + {FileName(p.title)}
    ensures forall n :: n in files && n != FileName(p.title) ==> n in files' && files'[n] == files[n]
    ensures fault == NoFault ==> FileName(p.title) in files' && files'[FileName(p.title)] == p.body
  {
    WriteFile(files, FileName(p.title), p.body, fault)
  }

  /**
   * `loadPage(title)`: the page read from the title's file. It fails when
   * the file is missing or cannot be read, and a loaded page carries the
   * requested title and exactly the file's bytes.
   */
  function LoadFrom(files: Files, title: string, readFault: bool): (r: Result<Page, StoreError>)
    ensures r.Success? <==> FileName(title) in files && !readFault
    ensures r.Success? ==> r.value == Page(title, files[FileName(title)])
    ensures FileName(title) !in files ==> r == Failure(NoSuchFile)
  {
    var name := FileName(title);
    if name !in files then Failure(NoSuchFile)
    else if readFault then Failure(ReadFailed)
    else Success(Page(title, files[name]))
  }

  /** Saving a page and then loading its title gives the page back. */
  lemma LoadAfterSave(files: Files, p: Page)
    ensures LoadFrom(AfterSave(files, p, NoFault), p.title, false) == Success(p)
  {
  }

  /** Saving a page, even when the save fails, leaves every other page as it was. */
  lemma SaveLeavesOtherPages(files: Files, p: Page, fault: WriteFault, title: string, readFault: bool)
    requires title != p.title
    ensures LoadFrom(AfterSave(files, p, fault), title, readFault) == LoadFrom(files, title, readFault)
  {
    FileNameInjective(title, p.title);
  }

  /** A successful save overwrites: no trace of the earlier body is kept. */
  lemma SaveOverwrites(files: Files, title: string, old1: seq<byte>, body: seq<byte>, fault: WriteFault)
    ensures AfterSave(AfterSave(files, Page(title, old1), fault), Page(title, body), NoFault)
         == AfterSave(files, Page(title, body), NoFault)
  {
  }

  /**
   * The directory of page files, updated in place by `save` and read by
   * `loadPage`.
   */
  class PageStore {
    var files: Files

    constructor (initial: Files)
      ensures files == initial
    {
      files := initial;
    }

    /** `p.save()`: write the body to the title's file. */
    method Save(p: Page, fault: WriteFault) returns (err: Option<StoreError>)
      modifies this
      ensures files == AfterSave(old(files), p, fault)
      ensures err == SaveError(fault)
    {
      var name := FileName(p.title);
      match fault {
        case NoFault =>
          files := files[name := p.body];
          err := None;
        case OpenFailed =>
          err := Some(WriteFailed);
        case ShortWrite(written) =>
          var n := if written < |p.body| then written else |p.body|;
          files := files[name := p.body[..n]];
          err := Some(WriteFailed);
      }
    }

    /** `loadPage(title)`: read the title's file; nothing changes. */
    method LoadPage(title: string, readFault: bool) returns (r: Result<Page, StoreError>)
      ensures r == LoadFrom(files, title, readFault)
    {
      var name := FileName(title);
      if name !in files {
        return Failure(NoSuchFile);
      }
      if readFault {
        return Failure(ReadFailed);
      }
      r := Success(Page(title, files[name]));
    }
  }
}
