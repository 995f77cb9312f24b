/** Repository paths: POSIX path parsing and the normalisation shared by the CI scripts. */
module Paths {
  import opened Wrappers
  import opened Text

  /** A parsed POSIX path: `""`, `"/"` or `"//"`, then the components. */
  datatype PurePath = PurePath(root: string, tail: seq<string>)

  function Kept(pieces: seq<string>): (r: seq<string>)
    ensures forall p :: p in r <==> p in pieces && p != "" && p != "."
  {
    if pieces == [] then []
    else (if pieces[0] == "" || pieces[0] == "." then [] else [pieces[0]]) + Kept(pieces[1..])
  }

  function RootOf(s: string): string {
    if "//" <= s && !("///" <= s) then "//" else if "/" <= s then "/" else ""
  }

  /** Empty and `.` components disappear; `..` stays. */
  function Parse(s: string): (r: PurePath)
    ensures forall p :: p in r.tail ==> '/' !in p && p != "" && p != "."
  {
    PurePath(RootOf(s), Kept(Split(s, '/')))
  }

  function AsPosix(p: PurePath): string {
    if p.root == "" && p.tail == [] then "." else p.root + Join(p.tail, '/')
  }

  /** Equal to `path`, or one of its parents. */
  predicate IsAncestorOrSelf(ancestor: PurePath, path: PurePath) {
    ancestor.root == path.root && ancestor.tail <= path.tail
  }

  /** The number of entries in a path's `parts`. */
  function PartCount(p: PurePath): nat {
    |p.tail| + if p.root == "" then 0 else 1
  }

  function NameOf(path: string): string {
    var tail := Parse(path).tail;
    if tail == [] then "" else tail[|tail| - 1]
  }

  // ----- Normalisation -----

  datatype PathError = MustBeRelative | InvalidPath

  function ForwardSlashes(s: string): (r: string)
    ensures |r| == |s| && '\\' !in r
    ensures forall i :: 0 <= i < |s| ==> r[i] == if s[i] == '\\' then '/' else s[i]
  {
    if s == "" then "" else [if s[0] == '\\' then '/' else s[0]] + ForwardSlashes(s[1..])
  }

  predicate IsLetter(c: char) { 'a' <= c <= 'z' || 'A' <= c <= 'Z' }

  predicate HasDrive(s: string) { |s| >= 3 && IsLetter(s[0]) && s[1] == ':' && s[2] == '/' }

  function StripLeft(s: string): string {
    if s != "" && s[0] == '/' then StripLeft(s[1..]) else s
  }

  function StripRight(s: string): string {
    if s != "" && s[|s| - 1] == '/' then StripRight(s[..|s| - 1]) else s
  }

  function NormalizeRepoPath(raw: string): Result<string, PathError> {
    var candidate := ForwardSlashes(raw);
    if "/" <= candidate || HasDrive(candidate) then Failure(MustBeRelative)
    else
      var normalized := StripRight(StripLeft(candidate));
      var path := Parse(normalized);
      if normalized == "" || path.root != "" || ".." in path.tail then Failure(InvalidPath)
      else Success(AsPosix(path))
  }

  /** The normalised paths, or the first error of a path. */
  function NormalizeEach(paths: seq<string>): Result<seq<string>, PathError> {
    if paths == [] then Success([])
    else
      match NormalizeRepoPath(paths[0])
      case Failure(e) => Failure(e)
      case Success(path) =>
        match NormalizeEach(paths[1..])
        case Failure(e) => Failure(e)
        case Success(rest) => Success([path] + rest)
  }

  method NormalizeAll(paths: seq<string>) returns (r: Result<seq<string>, PathError>)
    ensures r == NormalizeEach(paths)
  {
    hide NormalizeRepoPath;
    var done: seq<string> := [];
    assert paths[0..] == paths;
    assert forall rest: seq<string> :: done + rest == rest;
    for i := 0 to |paths|
      invariant NormalizeEach(paths) == match NormalizeEach(paths[i..])
        case Failure(e) => Failure(e)
        case Success(rest) => Success(done + rest)
    {
      var path := NormalizeRepoPath(paths[i]);
      assert paths[i..][1..] == paths[i + 1..];
      if path.Failure? {
        return Failure(path.error);
      }
      match NormalizeEach(paths[i + 1..]) {
        case Success(rest) => assert done + ([path.value] + rest) == done + [path.value] + rest;
        case Failure(_) =>
      }
      done := done + [path.value];
    }
    assert done + [] == done;
    r := Success(done);
  }

  lemma {:induction false} NormalizeEachIsPointwise(paths: seq<string>)
    ensures NormalizeEach(paths).Success? <==> forall p :: p in paths ==> NormalizeRepoPath(p).Success?
    ensures NormalizeEach(paths).Success? ==>
      var all := NormalizeEach(paths).value;
      |all| == |paths| && forall i :: 0 <= i < |all| ==> NormalizeRepoPath(paths[i]) == Success(all[i])
  {
    if paths != [] {
      NormalizeEachIsPointwise(paths[1..]);
      assert paths == [paths[0]] + paths[1..];
    }
  }

  // ----- What a normalised path looks like -----

  lemma {:induction false} KeptIsIdentity(pieces: seq<string>)
    requires forall p :: p in pieces ==> p != "" && p != "."
    ensures Kept(pieces) == pieces
  {
    if pieces != [] {
      assert pieces[0] in pieces && forall p :: p in pieces[1..] ==> p in pieces;
      KeptIsIdentity(pieces[1..]);
    }
  }

  lemma {:induction false} JoinedEnds(parts: seq<string>)
    requires parts != [] && forall p :: p in parts ==> p != "" && '/' !in p
    ensures var s := Join(parts, '/'); s != "" && s[0] != '/' && s[|s| - 1] != '/'
  {
    assert parts[0] in parts && parts[0][0] in parts[0];
    if |parts| == 1 {
      assert parts[0][|parts[0]| - 1] in parts[0];
    } else {
      assert forall p :: p in parts[1..] ==> p in parts;
      JoinedEnds(parts[1..]);
      var rest := Join(parts[1..], '/');
      assert Join(parts, '/') == parts[0] + ['/'] + rest;
      assert Join(parts, '/')[|Join(parts, '/')| - 1] == rest[|rest| - 1];
    }
  }

  lemma {:induction false} JoinHasNo(parts: seq<string>, c: char)
    requires c != '/' && forall p :: p in parts ==> c !in p
    ensures c !in Join(parts, '/')
  {
    if |parts| > 1 {
      JoinHasNo(parts[1..], c);
      assert Join(parts, '/') == parts[0] + ['/'] + Join(parts[1..], '/');
    } else if |parts| == 1 {
      assert parts[0] in parts;
    }
  }

  lemma {:induction false} SplitHasNo(s: string, c: char)
    requires c !in s
    ensures forall p :: p in Split(s, '/') ==> c !in p
  {
    if s != "" {
      SplitHasNo(s[1..], c);
      var rest := Split(s[1..], '/');
      assert rest[0] in rest;
    }
  }

  lemma {:induction false} StripKeepsOut(s: string, c: char)
    requires c !in s
    ensures c !in StripLeft(s) && c !in StripRight(s)
    decreases |s|
  {
    if s != "" {
      StripKeepsOut(s[1..], c);
      StripKeepsOut(s[..|s| - 1], c);
    }
  }

  lemma {:induction false} ForwardSlashesIsIdentity(s: string)
    requires '\\' !in s
    ensures ForwardSlashes(s) == s
  {
  }

  /** A normal path: components joined by single slashes, without `.`, `..`, backslashes or a root. */
  predicate Normal(t: string) {
    && '\\' !in t && RootOf(t) == "" && AsPosix(Parse(t)) == t && ".." !in Parse(t).tail
  }

  lemma NormalisedIsNormal(raw: string)
    requires NormalizeRepoPath(raw).Success?
    ensures Normal(NormalizeRepoPath(raw).value)
  {
    var candidate := ForwardSlashes(raw);
    var normalized := StripRight(StripLeft(candidate));
    var tail, t := Parse(normalized).tail, NormalizeRepoPath(raw).value;
    StripKeepsOut(candidate, '\\');
    StripKeepsOut(StripLeft(candidate), '\\');
    SplitHasNo(normalized, '\\');
    PartsAreNormal(tail);
  }

  lemma RelativeHasNoRoot(t: string)
    requires t == "" || t[0] != '/'
    ensures RootOf(t) == ""
  {
  }

  lemma ParseOfParts(tail: seq<string>)
    requires tail != [] && forall p :: p in tail ==> '/' !in p && p != "" && p != "."
    ensures Parse(Join(tail, '/')) == PurePath("", tail)
  {
    JoinedEnds(tail);
    RelativeHasNoRoot(Join(tail, '/'));
    SplitJoin(tail, '/');
    KeptIsIdentity(tail);
  }

  lemma PartsAreNormal(tail: seq<string>)
    requires forall p :: p in tail ==> '/' !in p && '\\' !in p && p != "" && p != "." && p != ".."
    ensures Normal(AsPosix(PurePath("", tail)))
  {
    var t := AsPosix(PurePath("", tail));
    if tail != [] {
      hide Parse, RootOf;
      assert t == Join(tail, '/');
      JoinedEnds(tail);
      RelativeHasNoRoot(t);
      JoinHasNo(tail, '\\');
      ParseOfParts(tail);
    } else {
      SplitPlain(".", '/');
      assert Parse(".") == PurePath("", []);
    }
  }

  lemma NormalIsAccepted(t: string)
    requires Normal(t)
    ensures NormalizeRepoPath(t) == if HasDrive(t) then Failure(MustBeRelative) else Success(t)
  {
    NormalParseKeepsText(t);
  }

  lemma NormalParseKeepsText(t: string)
    requires Normal(t)
    ensures t != "" && StripRight(StripLeft(t)) == t && ForwardSlashes(t) == t
  {
    ForwardSlashesIsIdentity(t);
    var tail := Parse(t).tail;
    if tail != [] {
      JoinedEnds(tail);
    }
  }

  /**
   * Normalising twice: the result of a normalisation is accepted again, unchanged, exactly
   * when it does not look like a drive path.
   */
  lemma NormalizeTwice(raw: string)
    requires NormalizeRepoPath(raw).Success?
    ensures var t := NormalizeRepoPath(raw).value;
      NormalizeRepoPath(t) == if HasDrive(t) then Failure(MustBeRelative) else Success(t)
  {
    NormalisedIsNormal(raw);
    NormalIsAccepted(NormalizeRepoPath(raw).value);
  }

  lemma DottedParse(t: string)
    requires RootOf(t) == ""
    ensures Parse("./" + t) == Parse(t)
  {
    assert "./" + t == "." + ['/'] + t;
    SplitPrefix(".", t, '/');
    assert (["."] + Split(t, '/'))[1..] == Split(t, '/');
  }

  lemma DottedText(t: string)
    requires t != "" && '\\' !in t && t[|t| - 1] != '/'
    ensures ForwardSlashes("./" + t) == "./" + t && StripRight(StripLeft("./" + t)) == "./" + t
    ensures !("/" <= "./" + t) && !HasDrive("./" + t)
  {
    hide Parse, ForwardSlashes;
    var s := "./" + t;
    assert s[0] == '.' && s[1] == '/' && s[|s| - 1] == t[|t| - 1];
    assert StripLeft(s) == s && StripRight(s) == s;
    ForwardSlashesIsIdentity(s);
  }

  /** Behind `./` every normal path is accepted, also one that looks like a drive path and is rejected alone. */
  lemma DottedPathIsAccepted(t: string)
    requires Normal(t) && t != "."
    ensures NormalizeRepoPath("./" + t) == Success(t)
    ensures HasDrive(t) ==> NormalizeRepoPath(t) == Failure(MustBeRelative)
  {
    NormalParseKeepsText(t);
    JoinedEnds(Parse(t).tail);
    DottedText(t);
    DottedParse(t);
  }

  // ----- Directories and names -----

  lemma {:induction false} JoinSnoc(front: seq<string>, last: string)
    ensures Join(front + [last], '/') == if front == [] then last else Join(front, '/') + ['/'] + last
  {
    if front == [] {
      assert front + [last] == [last];
    } else {
      JoinSnoc(front[1..], last);
      assert (front + [last])[1..] == front[1..] + [last];
      if |front| > 1 {
        assert Join(front, '/') == front[0] + ['/'] + Join(front[1..], '/');
      }
    }
  }

  lemma NormalText(path: string)
    requires Normal(path) && path != "."
    ensures Parse(path).tail != [] && path == Join(Parse(path).tail, '/')
  {
  }

  /** The name of a normal path is what follows its last slash. */
  lemma NameFollowsLastSlash(path: string)
    requires Normal(path) && path != "."
    ensures NameOf(path) != "" && '/' !in NameOf(path)
    ensures path == NameOf(path) || exists directory :: path == directory + ['/'] + NameOf(path)
  {
    NormalText(path);
    hide Parse, Join, Normal;
    var tail := Parse(path).tail;
    var front, last := tail[..|tail| - 1], tail[|tail| - 1];
    assert tail == front + [last] && last in tail;
    JoinSnoc(front, last);
  }

  predicate IsComponentName(a: string) { '/' !in a && a != "" && a != "." }

  lemma KeptBehindTwo(a: string, b: string, rest: seq<string>)
    requires IsComponentName(a) && IsComponentName(b)
    ensures Kept([a, b] + rest) == [a, b] + Kept(rest)
  {
    var all := [a, b] + rest;
    assert all[1..] == [b] + rest && all[1..][1..] == rest;
  }

  lemma SplitBehindTwo(a: string, b: string, rest: string)
    requires '/' !in a && '/' !in b
    ensures Split(a + ['/'] + b + ['/'] + rest, '/') == [a, b] + Split(rest, '/')
  {
    SplitPrefix(a, b + ['/'] + rest, '/');
    SplitPrefix(b, rest, '/');
    assert a + ['/'] + b + ['/'] + rest == a + ['/'] + (b + ['/'] + rest);
    assert [a] + ([b] + Split(rest, '/')) == [a, b] + Split(rest, '/');
  }

  lemma JoinOfTwo(a: string, b: string, rest: seq<string>)
    ensures Join([a, b], '/') == a + ['/'] + b
    ensures rest != [] ==> Join([a, b] + rest, '/') == a + ['/'] + b + ['/'] + Join(rest, '/')
  {
    assert [a, b][1..] == [b];
    if rest != [] {
      var all := [a, b] + rest;
      assert all[1..] == [b] + rest && all[1..][1..] == rest;
      assert a + ['/'] + (b + ['/'] + Join(rest, '/')) == a + ['/'] + b + ['/'] + Join(rest, '/');
    }
  }

  /** Two leading components are a leading directory. */
  lemma LeadingDirectory(path: string, a: string, b: string, rest: string)
    requires Normal(path) && IsComponentName(a) && IsComponentName(b)
    requires path == a + ['/'] + b + ['/'] + rest
    ensures Parse(path).tail == [a, b] + Kept(Split(rest, '/')) && Kept(Split(rest, '/')) != []
  {
    hide Kept, Join, Split, RootOf;
    SplitBehindTwo(a, b, rest);
    KeptBehindTwo(a, b, Split(rest, '/'));
    JoinOfTwo(a, b, []);
    NormalText(path);
    assert |Join([a, b], '/')| < |path|;
    assert [a, b] + [] == [a, b];
  }

  lemma LeadingComponents(path: string, a: string, b: string)
    requires Normal(path) && IsComponentName(a) && IsComponentName(b)
    ensures |Parse(path).tail| >= 3 && Parse(path).tail[..2] == [a, b] <==> a + ['/'] + b + ['/'] <= path
  {
    hide Kept, Join, Split, RootOf, Parse;
    var tail, directory := Parse(path).tail, a + ['/'] + b + ['/'];
    if |tail| >= 3 && tail[..2] == [a, b] {
      assert tail == [a, b] + tail[2..];
      JoinOfTwo(a, b, tail[2..]);
      NormalText(path);
      assert path == directory + Join(tail[2..], '/');
    }
    if directory <= path {
      LeadingDirectory(path, a, b, path[|directory|..]);
    }
  }

  /** A path of three components, given by the first two, is a name in a directory. */
  lemma NameInDirectory(path: string, a: string, b: string, name: string)
    requires Normal(path) && IsComponentName(a) && IsComponentName(b)
    ensures Parse(path).tail == [a, b, name] <==> path == a + ['/'] + b + ['/'] + name && '/' !in name
    ensures Parse(path).tail == [a, b, name] ==> NameOf(path) == name
  {
    var tail := Parse(path).tail;
    JoinOfTwo(a, b, [name]);
    assert [a, b] + [name] == [a, b, name];
    hide Join, Split, RootOf;
    if tail == [a, b, name] {
      NormalText(path);
      assert name in tail;
      assert path == a + ['/'] + b + ['/'] + name;
    }
    if path == a + ['/'] + b + ['/'] + name && '/' !in name {
      LeadingDirectory(path, a, b, name);
      SplitPlain(name, '/');
      assert [name][1..] == [];
    }
  }

  // ----- Ancestors -----

  lemma NormalSplits(path: string)
    requires Normal(path) && path != "."
    ensures Split(path, '/') == Parse(path).tail && Parse(path).tail != [] && Parse(path).root == ""
  {
    assert Parse(path).tail != [] && Parse(path).root == "";
    NormalText(path);
    hide Split, Join, Kept, Normal, AsPosix;
    SplitJoin(Parse(path).tail, '/');
  }

  lemma {:induction false} JoinOfConcat(front: seq<string>, rest: seq<string>)
    requires front != [] && rest != []
    ensures Join(front + rest, '/') == Join(front, '/') + ['/'] + Join(rest, '/')
  {
    assert (front + rest)[1..] == front[1..] + rest;
    if |front| > 1 {
      JoinOfConcat(front[1..], rest);
      assert front[0] + ['/'] + (Join(front[1..], '/') + ['/'] + Join(rest, '/'))
        == front[0] + ['/'] + Join(front[1..], '/') + ['/'] + Join(rest, '/');
    }
  }

  /** One normal path is an ancestor of another exactly when its text and a slash lead the other one's. */
  lemma AncestorIff(a: string, b: string)
    requires Normal(a) && Normal(b) && a != "." && b != "."
    ensures IsAncestorOrSelf(Parse(a), Parse(b)) <==> a == b || a + ['/'] <= b
  {
    hide Split, Parse, Join, Normal;
    NormalSplits(a);
    NormalSplits(b);
    NormalText(a);
    NormalText(b);
    var s, t := Parse(a).tail, Parse(b).tail;
    if s <= t && s != t {
      var rest := t[|s|..];
      assert t == s + rest && rest != [];
      JoinOfConcat(s, rest);
    }
    if a + ['/'] <= b {
      var rest := b[|a| + 1..];
      assert b == a + ['/'] + rest;
      SplitBehind(a, rest, '/');
    }
  }

  /** The parts of a normal path are one more than its slashes. */
  lemma PartsAreCounted(path: string)
    requires Normal(path) && path != "."
    ensures PartCount(Parse(path)) == CountOf(path, '/') + 1
  {
    NormalSplits(path);
    PiecesAreCounted(path, '/');
  }

  // ----- What normalisation is -----

  function KeptOne(piece: string): seq<string> { if piece == "" || piece == "." then [] else [piece] }

  lemma KeptBehindOne(piece: string, pieces: seq<string>)
    ensures Kept([piece] + pieces) == KeptOne(piece) + Kept(pieces)
  {
    assert ([piece] + pieces)[1..] == pieces;
  }

  lemma ConcatAssociates(a: seq<string>, b: seq<string>, c: seq<string>)
    ensures a + (b + c) == a + b + c
  {
  }

  lemma FirstAndRest(front: seq<string>, back: seq<string>)
    requires front != []
    ensures front == [front[0]] + front[1..] && front + back == [front[0]] + (front[1..] + back)
  {
  }

  lemma {:induction false} KeptOfConcat(front: seq<string>, back: seq<string>)
    ensures Kept(front + back) == Kept(front) + Kept(back)
  {
    if front == [] {
      assert front + back == back;
    } else {
      var rest := front[1..];
      KeptOfConcat(rest, back);
      KeptBehindOne(front[0], rest);
      KeptBehindOne(front[0], rest + back);
      FirstAndRest(front, back);
      ConcatAssociates(KeptOne(front[0]), Kept(rest), Kept(back));
    }
  }

  lemma SlashAtTheEnd(s: string)
    ensures Kept(Split(s + ['/'], '/')) == Kept(Split(s, '/'))
  {
    SplitBehind(s, [], '/');
    assert s + ['/'] + [] == s + ['/'];
    SplitPlain<char>([], '/');
    KeptOfConcat(Split(s, '/'), [""]);
    KeptBehindOne("", []);
    hide Kept, Split;
    assert [""] + [] == [""] && Kept(Split(s, '/')) + [] == Kept(Split(s, '/'));
  }

  /** Slashes at the end add no components. */
  lemma {:induction false} StripKeepsComponents(s: string)
    ensures Kept(Split(StripRight(s), '/')) == Kept(Split(s, '/'))
    decreases |s|
  {
    hide Kept, Split;
    if s != "" && s[|s| - 1] == '/' {
      var init := s[..|s| - 1];
      StripKeepsComponents(init);
      SlashAtTheEnd(init);
      assert s == init + ['/'];
    }
  }

  /** A path looks like a drive path when it starts with a letter, a colon and a slash. */
  lemma DriveIff(s: string)
    ensures HasDrive(s) <==>
      exists letter, rest :: ('a' <= letter <= 'z' || 'A' <= letter <= 'Z') && s == [letter] + ":/" + rest
  {
    if HasDrive(s) {
      assert s == [s[0]] + ":/" + s[3..];
    }
  }

  /** One leading slash or more than two make a root of one, exactly two a root of their own. */
  lemma RootsAre(s: string)
    ensures s == "" || s[0] != '/' ==> RootOf(s) == ""
    ensures s != "" && s[0] == '/' ==>
      RootOf(s) == if |s| > 1 && s[1] == '/' && (|s| == 2 || s[2] != '/') then "//" else "/"
  {
    assert |s| > 1 ==> ("//" <= s <==> s[0] == '/' && s[1] == '/');
    assert |s| > 2 ==> ("///" <= s <==> s[0] == '/' && s[1] == '/' && s[2] == '/');
  }

  /**
   * Backslashes read as slashes, an absolute or drive-like path is refused, then an empty one and
   * one with a parent component; the others become their components, without empty ones and
   * single dots, joined by single slashes.
   */
  lemma NormalizeIs(raw: string)
    ensures var text := ForwardSlashes(raw);
      var components := Kept(Split(text, '/'));
      NormalizeRepoPath(raw) ==
        if (text != "" && text[0] == '/') || HasDrive(text) then Failure(MustBeRelative)
        else if text == "" || ".." in Split(text, '/') then Failure(InvalidPath)
        else Success(if components == [] then "." else Join(components, '/'))
  {
    var text := ForwardSlashes(raw);
    hide Kept, Split, StripRight, StripLeft, HasDrive, ForwardSlashes, Join, Parse, AsPosix;
    if text == "" {
      assert StripRight(StripLeft("")) == "" by { NothingToStrip(); }
    } else if text[0] != '/' {
      RelativeParse(text);
      KeptHolds(Split(text, '/'), "..");
      PosixOfComponents(Kept(Split(text, '/')));
    }
  }

  lemma NothingToStrip()
    ensures StripRight(StripLeft("")) == ""
  {
  }

  lemma PosixOfComponents(tail: seq<string>)
    ensures AsPosix(PurePath("", tail)) == if tail == [] then "." else Join(tail, '/')
  {
    assert "" + Join(tail, '/') == Join(tail, '/');
  }

  lemma RelativeParse(text: string)
    requires text != "" && text[0] != '/'
    ensures var normalized := StripRight(StripLeft(text));
      normalized != "" && Parse(normalized) == PurePath("", Kept(Split(text, '/')))
  {
    hide Kept, Split, StripRight, RootOf;
    assert StripLeft(text) == text;
    StrippedIsPrefix(text);
    RelativeHasNoRoot(StripRight(text));
    StripKeepsComponents(text);
  }

  lemma KeptHolds(pieces: seq<string>, p: string)
    ensures p in Kept(pieces) <==> p in pieces && p != "" && p != "."
  {
  }

  lemma {:induction false} StrippedIsPrefix(s: string)
    ensures StripRight(s) <= s && (s != "" && s[0] != '/' ==> StripRight(s) != "")
    decreases |s|
  {
    if s != "" && s[|s| - 1] == '/' {
      StrippedIsPrefix(s[..|s| - 1]);
    }
  }
}
