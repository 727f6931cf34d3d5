/**
 * The AudioFile record of the player package (internal/components/player/audio_file.go):
 * a display name and an extension derived from a file path, and the path itself.
 */
module AudioFiles {
  import FilePath
  import Strings

  /** The value of an AudioFile record, as Go passes it around by value. */
  datatype Metadata = Metadata(name: string, ext: string, path: string)

  /** The zero value `AudioFile{}`. */
  const Empty := Metadata("", "", "")

  /** An extension as filepath.Ext returns it: empty, or a '.' followed by no further '.' or '/'. */
  predicate ExtShaped(ext: string) {
    ext == [] || (ext[0] == '.' && '.' !in ext[1..] && '/' !in ext)
  }

  /**
   * NewAudioFile: the extension is filepath.Ext of the base name, and the name is
   * the base name with the FIRST occurrence of the extension removed
   * (strings.Replace with n == 1), which need not be the trailing one.
   */
  function NewAudioFile(path: string): (af: Metadata)
    ensures af.path == path
    ensures af.ext == FilePath.Ext(FilePath.Base(path)) && ExtShaped(af.ext)
    ensures var base := FilePath.Base(path);
      && |af.ext| <= |base|
      && |af.name| == |base| - |af.ext|
      && (af.ext == [] ==> af.name == base)
  {
    var base := FilePath.Base(path);
    var ext := FilePath.Ext(base);
    var name := Strings.ReplaceOnce(base, ext, "");
    StripExt(base, ext, name);
    Metadata(name, ext, path)
  }

  /** What removing the first occurrence of a string's own extension leaves. */
  lemma StripExt(base: string, ext: string, name: string)
    requires ext == FilePath.Ext(base) && name == Strings.ReplaceOnce(base, ext, "")
    ensures ExtShaped(ext)
    ensures |ext| <= |base| && ext == base[|base| - |ext|..]
    ensures |name| == |base| - |ext|
    ensures ext == [] ==> name == base
  {
    FilePath.ExtShape(base);
    Strings.ReplaceOnceShape(base, ext, "");
    if ext != [] {
      Strings.SuffixOccurs(base, ext);
    }
  }

  /**
   * The name is the base name with the FIRST occurrence of the extension cut
   * out, wherever in the base that occurrence stands.
   */
  lemma NameRemovesFirstOccurrence(path: string)
    ensures var base, af := FilePath.Base(path), NewAudioFile(path);
      af.ext != [] ==>
        var i := Strings.Index(base, af.ext);
        && 0 <= i && i + |af.ext| <= |base|
        && af.name == base[..i] + base[i + |af.ext|..]
  {
    var base := FilePath.Base(path);
    var ext := FilePath.Ext(base);
    Unfold(path, base, ext);
    StripFirst(base, ext);
  }

  lemma StripFirst(base: string, ext: string)
    requires ext == FilePath.Ext(base)
    ensures ext != [] ==>
      var i := Strings.Index(base, ext);
      && 0 <= i && i + |ext| <= |base|
      && Strings.ReplaceOnce(base, ext, "") == base[..i] + base[i + |ext|..]
  {
    if ext != [] {
      FilePath.ExtShape(base);
      Strings.SuffixOccurs(base, ext);
      Strings.RemoveFirstOccurrence(base, ext);
    }
  }

  /**
   * When the extension occurs in the base name only at its end, the name and
   * the extension put back together give the base name.
   */
  lemma NameRoundTrip(path: string)
    requires var base := FilePath.Base(path);
      forall j :: Strings.OccursAt(base, FilePath.Ext(base), j) ==> j == |base| - |FilePath.Ext(base)|
    ensures NewAudioFile(path).name + NewAudioFile(path).ext == FilePath.Base(path)
  {
    var base := FilePath.Base(path);
    StripExtRoundTrip(base, FilePath.Ext(base), Strings.ReplaceOnce(base, FilePath.Ext(base), ""));
  }

  lemma StripExtRoundTrip(base: string, ext: string, name: string)
    requires ext == FilePath.Ext(base) && name == Strings.ReplaceOnce(base, ext, "")
    requires forall j :: Strings.OccursAt(base, ext, j) ==> j == |base| - |ext|
    ensures name + ext == base
  {
    FilePath.ExtShape(base);
    Strings.RemoveSoleSuffix(base, ext);
  }

  /**
   * A path whose last element is `stem.b`, with one '.' and no separator,
   * gives the name `stem` and the extension `.b`.
   */
  lemma SingleDotPath(dir: string, stem: string, b: string)
    requires '.' !in stem && '/' !in stem && '.' !in b && '/' !in b
    ensures var af := NewAudioFile(dir + "/" + stem + "." + b);
      af.name == stem && af.ext == "." + b
  {
    var elem := stem + "." + b;
    assert dir + "/" + stem + "." + b == dir + "/" + elem;
    NotInJoin(stem, '.', b, '/');
    BaseAfterSlash(dir, elem);
    StripSingleDot(stem, b);
    Unfold(dir + "/" + elem, elem, "." + b);
  }

  /** The base of `dir/elem`, for a non-empty `elem` without separators, is `elem`. */
  lemma BaseAfterSlash(dir: string, elem: string)
    requires elem != [] && '/' !in elem
    ensures FilePath.Base(dir + "/" + elem) == elem
  {
    var path := dir + "/" + elem;
    FilePath.LastElementAfterSlash(dir, elem);
    assert path[|path| - 1] == elem[|elem| - 1];
    FilePath.BaseOfUntrailed(path);
  }

  /** For `stem.b` with a single '.', the extension is `.b` and removing it leaves `stem`. */
  lemma StripSingleDot(stem: string, b: string)
    requires '.' !in stem && '/' !in stem && '.' !in b && '/' !in b
    ensures FilePath.Ext(stem + "." + b) == "." + b
    ensures Strings.ReplaceOnce(stem + "." + b, "." + b, "") == stem
  {
    var elem, ext := stem + "." + b, "." + b;
    FilePath.ExtAfterDot(stem, b);
    SoleDot(stem, b);
    var name := Strings.ReplaceOnce(elem, ext, "");
    StripExtRoundTrip(elem, ext, name);
    assert name == (name + ext)[..|stem|];
  }

  /** NewAudioFile in terms of an already known base name and extension. */
  lemma Unfold(path: string, base: string, ext: string)
    requires FilePath.Base(path) == base && FilePath.Ext(base) == ext
    ensures NewAudioFile(path) == Metadata(Strings.ReplaceOnce(base, ext, ""), ext, path)
  {
  }

  /** In `stem.b`, with no '.' in `stem` or `b`, the string `.b` occurs only at its end. */
  lemma SoleDot(stem: string, b: string)
    requires '.' !in stem && '.' !in b
    ensures forall j :: Strings.OccursAt(stem + "." + b, "." + b, j) ==> j == |stem|
  {
    var elem, ext := stem + "." + b, "." + b;
    forall j | Strings.OccursAt(elem, ext, j)
      ensures j == |stem|
    {
      assert elem[j] == ext[0];
    }
  }

  /**
   * The FIRST occurrence of the extension is the one removed: for
   * `dir/stem.b.mid.b` (as in "intro.mp3.remix.mp3") the extension is `.b` and
   * the name is `stem.mid.b`, keeping the trailing copy of the extension.
   */
  lemma RepeatedExtension(dir: string, stem: string, mid: string, b: string)
    requires '.' !in stem && '/' !in stem && '.' !in mid && '/' !in mid && '.' !in b && '/' !in b
    ensures var af := NewAudioFile(dir + "/" + stem + "." + b + "." + mid + "." + b);
      af.ext == "." + b && af.name == stem + "." + mid + "." + b
  {
    var elem := stem + "." + b + "." + mid + "." + b;
    assert dir + "/" + stem + "." + b + "." + mid + "." + b == dir + "/" + elem;
    assert '/' !in elem by {
      NotInJoin(stem, '.', b, '/');
      NotInJoin(stem + "." + b, '.', mid, '/');
      NotInJoin(stem + "." + b + "." + mid, '.', b, '/');
    }
    BaseAfterSlash(dir, elem);
    StripRepeated(stem, mid, b);
    Unfold(dir + "/" + elem, elem, "." + b);
  }

  lemma StripRepeated(stem: string, mid: string, b: string)
    requires '.' !in stem && '.' !in mid && '.' !in b && '/' !in b
    ensures var elem := stem + "." + b + "." + mid + "." + b;
      && FilePath.Ext(elem) == "." + b
      && Strings.ReplaceOnce(elem, "." + b, "") == stem + "." + mid + "." + b
  {
    var elem := stem + "." + b + "." + mid + "." + b;
    var ext, tail := "." + b, "." + mid + "." + b;
    FilePath.ExtAfterDot(stem + "." + b + "." + mid, b);
    Regroup(stem, b, mid);
    FirstDot(stem, ext, tail);
  }

  lemma Regroup(stem: string, b: string, mid: string)
    ensures stem + "." + b + "." + mid + "." + b == stem + ("." + b) + ("." + mid + "." + b)
    ensures stem + ("." + mid + "." + b) == stem + "." + mid + "." + b
  {
  }

  /** Removing `ext` from `stem + ext + tail`, when `ext` starts with a '.' that `stem` lacks, leaves `stem + tail`. */
  lemma FirstDot(stem: string, ext: string, tail: string)
    requires '.' !in stem && ext != [] && ext[0] == '.'
    ensures Strings.ReplaceOnce(stem + ext + tail, ext, "") == stem + tail
  {
    var s := stem + ext + tail;
    var k := |stem|;
    assert s[k..k + |ext|] == ext;
    forall j | 0 <= j < k
      ensures !Strings.OccursAt(s, ext, j)
    {
      assert s[j] == stem[j];
    }
    Strings.IndexOfFirstOccurrence(s, ext, k);
    Strings.ReplaceOnceShape(s, ext, "");
    assert s[..k] == stem && s[k + |ext|..] == tail;
  }

  lemma NotInJoin(x: string, c: char, y: string, ch: char)
    requires ch !in x && ch !in y && c != ch
    ensures ch !in x + [c] + y
  {
    var s := x + [c] + y;
    assert forall k :: 0 <= k < |s| ==> s[k] == (if k < |x| then x[k] else if k == |x| then c else y[k - |x| - 1]);
  }

  /** A base name without '.' has no extension and is the name itself. */
  lemma NoExtension(path: string)
    requires '.' !in FilePath.Base(path)
    ensures NewAudioFile(path).ext == [] && NewAudioFile(path).name == FilePath.Base(path)
  {
    var base := FilePath.Base(path);
    FilePath.ExtEmptyIff(base);
    assert FilePath.LastElement(base) == base[|base| - |FilePath.LastElement(base)|..];
  }

  /** The empty path has base "." and therefore extension "." and an empty name. */
  lemma EmptyPathExample()
    ensures NewAudioFile("") == Metadata("", ".", "")
  {
    assert FilePath.Base("") == ".";
    assert FilePath.Ext(".") == "." by {
      FilePath.ExtOfTrailingDot("");
      assert "" + "." == ".";
    }
    assert Strings.ReplaceOnce(".", ".", "") == "" by {
      assert Strings.OccursAt(".", ".", 0);
      Strings.IndexOfFirstOccurrence(".", ".", 0);
      Strings.RemoveTrailingOccurrence(".", ".");
    }
    Unfold("", ".", ".");
  }

  /**
   * An AudioFile that can be pointed to: the player keeps a pointer to its own
   * copy of the record, and SetName and SetPath update a record in place.
   */
  class AudioFile {
    var name: string
    var ext: string
    var path: string

    /** `&af`: a fresh record holding a copy of the value `af`. */
    constructor (af: Metadata)
      ensures Value() == af
    {
      name, ext, path := af.name, af.ext, af.path;
    }

    function Value(): Metadata
      reads this
    {
      Metadata(name, ext, path)
    }

    function Name(): (r: string)
      reads this
      ensures r == Value().name
    {
      name
    }

    /** The value a list filter matches against: the display name. */
    function FilterValue(): (r: string)
      reads this
      ensures r == Name()
    {
      name
    }

    function Path(): (r: string)
      reads this
      ensures r == Value().path
    {
      path
    }

    function Ext(): (r: string)
      reads this
      ensures r == Value().ext
    {
      ext
    }

    /** Replaces the name, unless the new name is empty. */
    method SetName(name: string)
      modifies this
      ensures name == "" ==> Value() == old(Value())
      ensures name != "" ==> Value() == old(Value()).(name := name)
    {
      if name == "" {
        return;
      }
      this.name := name;
    }

    /** Replaces the path; the name and extension derived from the old path stay. */
    method SetPath(path: string)
      modifies this
      ensures Value() == old(Value()).(path := path)
    {
      this.path := path;
    }
  }
}
