/**
 * `pathlib.PurePosixPath` as far as the collection manager uses it: building a path
 * from text, the `/` operator, `.parent`, `.name`, `.suffix`, `str()`, and
 * `expanduser()` with the home directories as parameters, and `resolve()` on a file
 * system without symbolic links.
 */
module Paths {
  import opened Strings
  import opened Wrappers

  /** A path: absolute or relative, and its components after the root. */
  datatype Path = Path(absolute: bool, parts: seq<string>)

  /** A component as `pathlib` keeps it: non-empty, not `.`, without a separator. */
  predicate IsPart(part: string)
  {
    part != "" && part != "." && '/' !in part
  }

  /** A path `pathlib` could have produced: every component kept. */
  predicate WellFormed(p: Path)
  {
    forall k :: 0 <= k < |p.parts| ==> IsPart(p.parts[k])
  }

  /** The components `pathlib` keeps from a list of pieces: it drops empty pieces and `.`. */
  function Keep(pieces: seq<string>): (r: seq<string>)
    ensures forall k :: 0 <= k < |r| ==> r[k] in pieces && r[k] != "" && r[k] != "."
  {
    if pieces == [] then []
    else if pieces[0] == "" || pieces[0] == "." then Keep(pieces[1..])
    else [pieces[0]] + Keep(pieces[1..])
  }

  /** `Path(s)`. */
  function Parse(s: string): (p: Path)
    ensures WellFormed(p)
  {
    var pieces := Split(s, '/');
    var kept := Keep(pieces);
    assert forall k :: 0 <= k < |kept| ==> kept[k] in pieces;
    Path(s != [] && s[0] == '/', kept)
  }

  /** `str(p)`. */
  function Str(p: Path): string
  {
    if p.absolute then "/" + Join(p.parts, '/')
    else if p.parts == [] then "."
    else Join(p.parts, '/')
  }

  /** `p / name` for one component. */
  function Slash(p: Path, name: string): (r: Path)
    requires IsPart(name)
    ensures WellFormed(p) ==> WellFormed(r)
    ensures r.absolute == p.absolute && r.parts == p.parts + [name]
  {
    Path(p.absolute, p.parts + [name])
  }

  /** `p.parent`: the root and `.` are their own parents. */
  function Parent(p: Path): (r: Path)
    ensures WellFormed(p) ==> WellFormed(r)
    ensures p.parts != [] ==> |r.parts| + 1 == |p.parts|
  {
    if p.parts == [] then p else Path(p.absolute, p.parts[..|p.parts| - 1])
  }

  /** `p.name`: the last component, or `""` for the root and `.`. */
  function Name(p: Path): string
  {
    if p.parts == [] then "" else p.parts[|p.parts| - 1]
  }

  lemma ParentOfSlash(p: Path, name: string)
    requires IsPart(name)
    ensures Parent(Slash(p, name)) == p && Name(Slash(p, name)) == name
  {
  }

  lemma SlashParentName(p: Path)
    requires p.parts != [] && WellFormed(p)
    ensures Slash(Parent(p), Name(p)) == p
  {
  }

  /** The index of the last occurrence of `c` in `s`, or -1: `str.rfind`. */
  function LastIndexOf(s: string, c: char): (i: int)
    ensures -1 <= i < |s|
    ensures i >= 0 ==> s[i] == c
    ensures forall j :: i < j < |s| ==> s[j] != c
  {
    if s == [] then -1
    else if s[|s| - 1] == c then |s| - 1
    else LastIndexOf(s[..|s| - 1], c)
  }

  /** `p.suffix`: from the last dot of the name, when that dot is neither first nor last. */
  function Suffix(p: Path): (r: string)
    ensures r != [] ==> r[0] == '.' && EndsWith(Name(p), r) && |r| >= 2 && |r| < |Name(p)|
  {
    var name := Name(p);
    var i := LastIndexOf(name, '.');
    if 0 < i < |name| - 1 then name[i..] else ""
  }

  lemma KeepKept(pieces: seq<string>)
    requires forall k :: 0 <= k < |pieces| ==> IsPart(pieces[k])
    ensures Keep(pieces) == pieces
  {
  }

  lemma {:induction false} JoinHead(parts: seq<string>)
    requires parts != []
    ensures "/" + Join(parts, '/') == Join([""] + parts, '/')
  {
    assert ([""] + parts)[1..] == parts;
  }

  /** Writing a well-formed path out and reading it back gives the same path. */
  lemma ParseStr(p: Path)
    requires WellFormed(p)
    ensures Parse(Str(p)) == p
  {
    if p.absolute && p.parts == [] {
      ParseRoot();
    } else if p.absolute {
      ParseAbsolute(p.parts);
    } else if p.parts == [] {
      ParseDot();
    } else {
      ParseRelative(p.parts);
    }
  }

  lemma ParseRoot()
    ensures Parse("/") == Path(true, [])
  {
    assert Split("/", '/') == ["", ""] by {
      SplitJoin(["", ""], '/');
      assert Join(["", ""], '/') == "/";
    }
  }

  lemma ParseDot()
    ensures Parse(".") == Path(false, [])
  {
    assert Split(".", '/') == ["."] by {
      SplitJoin(["."], '/');
    }
  }

  lemma ParseAbsolute(parts: seq<string>)
    requires parts != [] && forall k :: 0 <= k < |parts| ==> IsPart(parts[k])
    ensures Parse("/" + Join(parts, '/')) == Path(true, parts)
  {
    JoinHead(parts);
    SplitJoin([""] + parts, '/');
    KeepKept(parts);
    assert Keep([""] + parts) == Keep(parts);
  }

  lemma ParseRelative(parts: seq<string>)
    requires parts != [] && forall k :: 0 <= k < |parts| ==> IsPart(parts[k])
    ensures Parse(Join(parts, '/')) == Path(false, parts)
  {
    SplitJoin(parts, '/');
    KeepKept(parts);
    JoinFirst(parts);
  }

  /** A join of non-empty separator-free pieces does not start with the separator. */
  lemma {:induction false} JoinFirst(parts: seq<string>)
    requires parts != [] && forall k :: 0 <= k < |parts| ==> IsPart(parts[k])
    ensures IsPart(parts[0]) && Join(parts, '/') != [] && Join(parts, '/')[0] == parts[0][0]
  {
    if |parts| > 1 {
      assert Join(parts, '/') == parts[0] + ['/'] + Join(parts[1..], '/');
    }
  }

  /**
   * `resolve()` without symbolic links: each `..` removes the component before it
   * (nothing above the root), applied left to right.
   */
  function Collapse(done: seq<string>, rest: seq<string>): (r: seq<string>)
    requires forall k :: 0 <= k < |done| ==> IsPart(done[k]) && done[k] != ".."
    requires forall k :: 0 <= k < |rest| ==> IsPart(rest[k])
    ensures forall k :: 0 <= k < |r| ==> IsPart(r[k]) && r[k] != ".."
    decreases |rest|
  {
    if rest == [] then done
    else if rest[0] == ".." then
      Collapse(if done == [] then [] else done[..|done| - 1], rest[1..])
    else Collapse(done + [rest[0]], rest[1..])
  }

  /** The user whose home a relative path starts from: `""` for `~`, `name` for `~name`. */
  function HomeUser(p: Path): Option<string>
  {
    if !p.absolute && p.parts != [] && p.parts[0] != "" && p.parts[0][0] == '~' then Some(p.parts[0][1..])
    else None
  }

  /** The home directories `expanduser()` can look up: the user's own, and others' by name. */
  ghost predicate HomesWellFormed(home: Path, users: string -> Option<Path>)
  {
    WellFormed(home) && forall name :: users(name).Some? ==> WellFormed(users(name).value)
  }

  /** The message of pathlib's `RuntimeError` when a home directory cannot be found. */
  const NoHome := "Could not determine home directory."

  /**
   * `Path(s).expanduser().resolve()`: a leading `~` is the user's home directory and a
   * leading `~name` that user's (`users` looks them up; an unknown user raises), a
   * relative path is taken from the working directory, and `..` is folded away.
   */
  function Resolve(s: string, home: Path, users: string -> Option<Path>, cwd: Path): (r: Result<Path>)
    requires HomesWellFormed(home, users) && WellFormed(cwd)
    ensures r.Err? <==> var u := HomeUser(Parse(s)); u.Some? && u.value != "" && users(u.value).None?
    ensures r.Err? ==> r.error == NoHome
    ensures r.Ok? ==> r.value.absolute && WellFormed(r.value)
    ensures r.Ok? ==> forall k :: 0 <= k < |r.value.parts| ==> r.value.parts[k] != ".."
  {
    var p := Parse(s);
    var u := HomeUser(p);
    var base := if u == Some("") then Some(home) else if u.Some? then users(u.value) else None;
    if u.Some? && base.None? then Err(NoHome)
    else
      var expanded := if u.Some? then Path(base.value.absolute, base.value.parts + p.parts[1..]) else p;
      var full := if expanded.absolute then expanded.parts else cwd.parts + expanded.parts;
      Ok(Path(true, Collapse([], full)))
  }

  /** `~name/rest` names the same place as that user's home directory followed by `rest`. */
  lemma ResolveOtherUser(s: string, home: Path, users: string -> Option<Path>, cwd: Path)
    requires HomesWellFormed(home, users) && WellFormed(cwd)
    requires HomeUser(Parse(s)).Some? && HomeUser(Parse(s)).value != ""
    requires users(HomeUser(Parse(s)).value).Some? && users(HomeUser(Parse(s)).value).value.absolute
    ensures var h := users(HomeUser(Parse(s)).value).value;
      Resolve(s, home, users, cwd) == Ok(Path(true, Collapse([], h.parts + Parse(s).parts[1..])))
  {
  }

  /** A path that starts with neither `~` nor `/` is taken from the working directory. */
  lemma ResolveRelative(s: string, home: Path, users: string -> Option<Path>, cwd: Path)
    requires HomesWellFormed(home, users) && WellFormed(cwd)
    requires HomeUser(Parse(s)).None? && !Parse(s).absolute
    ensures Resolve(s, home, users, cwd) == Ok(Path(true, Collapse([], cwd.parts + Parse(s).parts)))
  {
  }
}
