// The names the backend derives for Cloudinary storage: the folder stem built from a
// chatbot's name, a document's file type taken from its original name (path.extname),
// and the public id recovered from a stored URL.
module StorageNames {
  import opened Common
  import opened Text

  predicate IsLowerAlnum(c: char) { 'a' <= c <= 'z' || '0' <= c <= '9' }

  /** `.replace(/[^a-z0-9]/g, '_')`. */
  function MaskFolderChars(s: string): (r: string)
    ensures |r| == |s|
    ensures forall i :: 0 <= i < |s| ==> r[i] == (if IsLowerAlnum(s[i]) then s[i] else '_')
  {
    seq(|s|, i requires 0 <= i < |s| => if IsLowerAlnum(s[i]) then s[i] else '_')
  }

  /**
   * `name.toLowerCase().replace(/[^a-z0-9]/g, '_').replace(/\s+/g, '_')`: every character
   * is lowercased and kept when it is then a letter or digit, and becomes '_' otherwise. The
   * last replace never finds whitespace, so the length is the name's.
   */
  function FolderName(name: string): (r: string)
    ensures |r| == |name|
    ensures forall i :: 0 <= i < |r| ==> IsLowerAlnum(r[i]) || r[i] == '_'
    ensures forall i :: 0 <= i < |r| ==>
              if IsLowerAlnum(LowerChar(name[i])) then r[i] == LowerChar(name[i]) else r[i] == '_'
  {
    var masked := MaskFolderChars(ToLower(name));
    CollapseSpacesNoop(masked);
    CollapseSpaces(masked)
  }

  /** A folder name is its own folder name. */
  lemma FolderNameIdempotent(name: string)
    ensures FolderName(FolderName(name)) == FolderName(name)
  {
  }

  // ---------------------------------------------------------------- path.extname

  /** `s.lastIndexOf(c)`, None for -1. */
  function LastIndexOf(s: string, c: char): (r: Option<nat>)
    ensures r.Some? ==> r.value < |s| && s[r.value] == c && c !in s[r.value + 1..]
    ensures r.None? ==> c !in s
  {
    if |s| == 0 then None
    else if s[|s| - 1] == c then Some(|s| - 1)
    else
      var r := LastIndexOf(s[..|s| - 1], c);
      assert s == s[..|s| - 1] + [s[|s| - 1]];
      r
  }

  /**
   * path.extname of a base name: from the last '.' to the end, except that a dot at the
   * start of the name (".bashrc") and the name ".." give "".
   */
  function Extname(base: string): (ext: string)
    ensures ext == "" || (ext[0] == '.' && '.' !in ext[1..] && EndsWith(base, ext) && |ext| < |base|)
  {
    match LastIndexOf(base, '.')
    case None => ""
    case Some(k) => if k == 0 || base == ".." then "" else base[k..]
  }

  /**
   * `path.extname(file.originalname).slice(1).toLowerCase()`. The base name is the text
   * after the last '/'.
   */
  function FileType(originalName: string): (t: string)
    ensures '.' !in t
  {
    var ext := Extname(LastField(originalName, '/'));
    var t := ToLower(if |ext| > 0 then ext[1..] else "");
    assert forall i :: 0 <= i < |t| ==> t[i] != '.';
    t
  }

  /** A name with a non-empty stem gets its extension, lowercased, as its type. */
  lemma FileTypeOfName(stem: string, ext: string)
    requires '/' !in stem && '/' !in ext && '.' !in ext
    requires |stem| > 0 && !(stem == "." && ext == "")
    ensures FileType(stem + "." + ext) == ToLower(ext)
  {
    var name := stem + "." + ext;
    LastFieldNoSeparator(name, '/');
    var k := LastIndexOf(name, '.');
    assert name[|stem|] == '.' && name[|stem| + 1..] == ext;
    LastIndexAt(name, '.', |stem|);
    assert name[|stem|..] == "." + ext;
  }

  /** A name with no dot has no type. */
  lemma FileTypeWithoutDot(name: string)
    requires '/' !in name && '.' !in name
    ensures FileType(name) == ""
  {
    LastFieldNoSeparator(name, '/');
  }

  lemma LastIndexAt(s: string, c: char, k: nat)
    requires k < |s| && s[k] == c && c !in s[k + 1..]
    ensures LastIndexOf(s, c) == Some(k)
  {
  }

  lemma {:induction false} LastFieldNoSeparator(s: string, sep: char)
    requires sep !in s
    ensures Split(s, sep) == [s]
    ensures LastField(s, sep) == s
  {
    if |s| > 0 {
      LastFieldNoSeparator(s[1..], sep);
      assert [s[0]] + s[1..] == s;
    }
  }

  // ---------------------------------------------------------------- public id

  /** `url.split('/').pop().split('.')[0]`: the last path segment, cut at its first '.'. */
  function PublicId(url: string): (id: string)
    ensures '/' !in id && '.' !in id
  {
    var segment := LastField(url, '/');
    LastFieldIsSuffix(url, '/');
    var id := TakeUntil(segment, '.');
    assert forall i :: 0 <= i < |id| ==> id[i] == segment[i];
    id
  }

  /** The public id of a URL `<folder>/<id>.<ext>` is `<id>`. */
  lemma PublicIdOfUrl(folder: string, id: string, ext: string)
    requires '/' !in id && '.' !in id && '/' !in ext
    ensures PublicId(folder + "/" + id + "." + ext) == id
  {
    var rest := id + "." + ext;
    assert folder + "/" + id + "." + ext == folder + ['/'] + rest;
    LastFieldAfter(folder, '/', rest);
    TakeUntilPrefix(id, '.', ext);
  }

  /** The last field after a separator that is followed by no other. */
  lemma {:induction false} LastFieldAfter(s: string, sep: char, rest: string)
    requires sep !in rest
    ensures |Split(s + [sep] + rest, sep)| >= 2
    ensures LastField(s + [sep] + rest, sep) == rest
  {
    var t := s + [sep] + rest;
    if |s| == 0 {
      assert t[1..] == rest;
      LastFieldNoSeparator(rest, sep);
    } else {
      assert t[1..] == s[1..] + [sep] + rest;
      LastFieldAfter(s[1..], sep, rest);
    }
  }

  lemma {:induction false} TakeUntilPrefix(p: string, c: char, rest: string)
    requires c !in p
    ensures TakeUntil(p + [c] + rest, c) == p
  {
    if |p| > 0 {
      assert (p + [c] + rest)[1..] == p[1..] + [c] + rest;
      TakeUntilPrefix(p[1..], c, rest);
      assert [p[0]] + p[1..] == p;
    }
  }
}
