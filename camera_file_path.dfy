/** `CameraFilePath`: a record wrapping the path of a camera file. Records
    compare by value, so two paths with the same text are the same path. */
module CameraFilePaths {
  import opened Text

  /** The extension rule shared by both `GetExtension`s: everything from the
      last `.` on, or the empty string when there is no `.`. */
  predicate IsExtensionOf(path: string, ext: string)
  {
    if '.' in path then
      && 1 <= |ext| <= |path| && ext == path[|path| - |ext|..]
      && ext[0] == '.' && '.' !in ext[1..]
    else ext == ""
  }

  /** There is one extension per path. */
  lemma ExtensionUnique(path: string, e1: string, e2: string)
    requires IsExtensionOf(path, e1) && IsExtensionOf(path, e2)
    ensures e1 == e2
  {
  }

  datatype CameraFilePath = CameraFilePath(value: string)
  {
    /** The suffix from the last `.`, case kept; empty without a `.`. */
    function GetExtension(): (r: string)
      ensures IsExtensionOf(value, r)
    {
      var extensionIndex := LastIndexOf(value, '.');
      if extensionIndex < 0 then "" else value[extensionIndex..]
    }
  }

  /** The implicit conversion to `string` gives the wrapped text back, and
      two paths are equal exactly when their texts are. */
  lemma PathValueEquality(a: CameraFilePath, b: CameraFilePath)
    ensures a == b <==> a.value == b.value
  {
  }

  /** The cases the program's tests pin down: the last `.` wins, the case
      of the extension is kept, and a path without `.` has none. */
  lemma GetExtensionExamples()
    ensures CameraFilePath("file.ext").GetExtension() == ".ext"
    ensures CameraFilePath("file.asd.ext").GetExtension() == ".ext"
    ensures CameraFilePath("file").GetExtension() == ""
    ensures CameraFilePath("").GetExtension() == ""
    ensures CameraFilePath("file.EXT").GetExtension() == ".EXT"
  {
    SuffixExample("file.ext", ".ext");
    SuffixExample("file.asd.ext", ".ext");
    SuffixExample("file.EXT", ".EXT");
    UndottedExample();
  }

  lemma UndottedExample()
    ensures CameraFilePath("file").GetExtension() == ""
    ensures CameraFilePath("").GetExtension() == ""
  {
    assert '.' !in "file";
  }

  /** A `.`-led suffix with no other `.` is the extension. */
  lemma SuffixExample(path: string, ext: string)
    requires 1 <= |ext| <= |path| && path[|path| - |ext|..] == ext
    requires ext[0] == '.' && '.' !in ext[1..]
    ensures CameraFilePath(path).GetExtension() == ext
  {
    assert path[|path| - |ext|] == '.';
    ExtensionUnique(path, CameraFilePath(path).GetExtension(), ext);
  }

  /** An extension as the finders spell it: a `.` and lower-case text with
      no other `.`. */
  predicate LowerCaseExtension(e: string)
  {
    |e| >= 1 && e[0] == '.' && '.' !in e[1..] && ToLowerInvariant(e) == e
  }

  /** A list of extensions as the finders spell them. */
  predicate LowerCaseExtensions(extensions: seq<string>)
  {
    forall i :: 0 <= i < |extensions| ==> LowerCaseExtension(extensions[i])
  }

  /** A `.` followed by lower-case letters and digits is such an extension. */
  lemma ExtensionShape(e: string)
    requires |e| >= 1 && e[0] == '.'
    requires forall i :: 1 <= i < |e| ==> 'a' <= e[i] <= 'z' || '0' <= e[i] <= '9'
    ensures LowerCaseExtension(e)
  {
    LowerWithoutCapitals(e);
    forall c | c in e[1..]
      ensures c != '.'
    {
      var k :| 0 <= k < |e[1..]| && e[1..][k] == c;
      assert e[k + 1] == c;
    }
  }

  /** Ending, in any letter case, with one of the listed extensions is the
      same as having one of them as extension once lower-cased. */
  lemma EndsWithAnyIffExtensionIn(path: string, extensions: seq<string>)
    requires LowerCaseExtensions(extensions)
    ensures EndsWithAnyIgnoreCase(path, extensions) <==>
            ToLowerInvariant(CameraFilePath(path).GetExtension()) in extensions
  {
    if EndsWithAnyIgnoreCase(path, extensions) {
      var i :| 0 <= i < |extensions| && EndsWithIgnoreCase(path, extensions[i]);
      SuffixIsExtension(path, extensions[i]);
    }
    if ToLowerInvariant(CameraFilePath(path).GetExtension()) in extensions {
      ExtensionEndsPath(path, extensions);
    }
  }

  lemma ExtensionEndsPath(path: string, extensions: seq<string>)
    requires LowerCaseExtensions(extensions)
    requires ToLowerInvariant(CameraFilePath(path).GetExtension()) in extensions
    ensures EndsWithAnyIgnoreCase(path, extensions)
  {
    var ext := CameraFilePath(path).GetExtension();
    var i :| 0 <= i < |extensions| && ToLowerInvariant(ext) == extensions[i];
    assert |ext| == |extensions[i]| >= 1;
    assert EndsWithIgnoreCase(path, extensions[i]);
  }

  /** A path ending, in any case, with an extension-shaped suffix has that
      suffix as its extension. */
  lemma SuffixIsExtension(path: string, e: string)
    requires LowerCaseExtension(e)
    requires EndsWithIgnoreCase(path, e)
    ensures ToLowerInvariant(CameraFilePath(path).GetExtension()) == e
  {
    var suffix := path[|path| - |e|..];
    assert ToLowerInvariant(suffix) == e;
    assert ToLowerChar(suffix[0]) == e[0];
    ToLowerDot(suffix[0]);
    forall j | 1 <= j < |suffix| ensures suffix[j] != '.' {
      assert ToLowerChar(suffix[j]) == e[j] == e[1..][j - 1];
      ToLowerDot(suffix[j]);
    }
    assert suffix[1..] == path[|path| - |e| + 1..];
    assert path[|path| - |e|] == '.';
    assert IsExtensionOf(path, suffix);
    ExtensionUnique(path, suffix, CameraFilePath(path).GetExtension());
  }
}
