// URIs: splitting by the regular expression of RFC 3986, appendix B, and the
// printers and readers of the concrete kinds.
module Uris {
  import opened Common

  // ------------------------------------------------------------------
  // Scanning
  // ------------------------------------------------------------------

  /** Index of the first character of s that is in stops, or its length. */
  function FirstOf(s: string, stops: string): (k: nat)
    ensures k <= |s|
    ensures forall i :: 0 <= i < k ==> s[i] !in stops
    ensures k < |s| ==> s[k] in stops
  {
    if s == "" || s[0] in stops then 0 else 1 + FirstOf(s[1..], stops)
  }

  predicate Without(s: string, stops: string) {
    forall i :: 0 <= i < |s| ==> s[i] !in stops
  }

  /** Scanning a text without stops runs to what follows it. */
  lemma {:induction false} FirstOfAppend(s: string, t: string, stops: string)
    requires Without(s, stops)
    ensures FirstOf(s + t, stops) == |s| + FirstOf(t, stops)
  {
    if s == "" {
      assert s + t == t;
    } else {
      assert (s + t)[0] == s[0] && (s + t)[1..] == s[1..] + t;
      FirstOfAppend(s[1..], t, stops);
    }
  }

  /** An optional part and what follows it. */
  datatype Split = Split(part: Option<string>, rest: string)

  function Joined(before: string, part: Option<string>): string {
    if part.Some? then before + part.value else ""
  }

  function SchemaText(part: Option<string>): string {
    if part.Some? then part.value + ":" else ""
  }

  // ------------------------------------------------------------------
  // The groups of the expression
  // ------------------------------------------------------------------

  /** (([^:/?#]+):)? */
  function SplitSchema(s: string): Split {
    var k := FirstOf(s, ":/?#");
    if 0 < k < |s| && s[k] == ':' then Split(Some(s[..k]), s[k + 1..]) else Split(None, s)
  }

  /** (//([^/?#]*))? */
  function SplitAuthority(s: string): Split {
    if |s| >= 2 && s[0] == '/' && s[1] == '/' then
      var k := FirstOf(s[2..], "/?#");
      Split(Some(s[2..][..k]), s[2..][k..])
    else Split(None, s)
  }

  /** ([^?#]*) */
  function SplitPath(s: string): Split {
    var k := FirstOf(s, "?#");
    Split(Some(s[..k]), s[k..])
  }

  /** (\\?([^#]*))? */
  function SplitQuery(s: string): Split {
    if s != "" && s[0] == '?' then
      var k := FirstOf(s[1..], "#");
      Split(Some(s[1..][..k]), s[1..][k..])
    else Split(None, s)
  }

  /** (#(.*))? to the end of the text; a dot is no newline. */
  function SplitFragment(s: string): Option<Option<string>> {
    if s == "" then Some(None)
    else if s[0] == '#' && Without(s[1..], "\n") then Some(Some(s[1..]))
    else None
  }

  datatype Uri =
    Uri(schema: Option<string>, authority: Option<string>, path: string, query: Option<string>, fragment: Option<string>)

  /** from_string; None is the ValueError of a text the expression does not match. */
  function FromString(s: string): Option<Uri> {
    var schema := SplitSchema(s);
    var authority := SplitAuthority(schema.rest);
    var path := SplitPath(authority.rest);
    var query := SplitQuery(path.rest);
    match SplitFragment(query.rest)
    case None => None
    case Some(fragment) => Some(Uri(schema.part, authority.part, path.part.value, query.part, fragment))
  }

  // ------------------------------------------------------------------
  // Recomposition by RFC 3986, section 5.3
  // ------------------------------------------------------------------

  function FragmentText(u: Uri): string { Joined("#", u.fragment) }

  function QueryText(u: Uri): string { Joined("?", u.query) + FragmentText(u) }

  function PathText(u: Uri): string { u.path + QueryText(u) }

  function AuthorityText(u: Uri): string { Joined("//", u.authority) + PathText(u) }

  function Compose(u: Uri): string { SchemaText(u.schema) + AuthorityText(u) }

  /** The parts the expression can produce: each part free of the characters that end it, and no part left inside
      the next one. */
  predicate Canonical(u: Uri) {
    && (u.schema.Some? ==> u.schema.value != "" && Without(u.schema.value, ":/?#"))
    && (u.schema.None? ==> SplitSchema(AuthorityText(u)).part == None)
    && (u.authority.Some? ==> Without(u.authority.value, "/?#") && (u.path == "" || u.path[0] == '/'))
    && (u.authority.None? ==> !(|u.path| >= 2 && u.path[0] == '/' && u.path[1] == '/'))
    && Without(u.path, "?#")
    && (u.query.Some? ==> Without(u.query.value, "#"))
    && (u.fragment.Some? ==> Without(u.fragment.value, "\n"))
  }

  // Splitting and joining one group.

  lemma JoinedFront(before: string, part: string, rest: string)
    ensures Joined(before, Some(part)) + rest == before + (part + rest)
  {
  }

  lemma SchemaSplits(s: string)
    ensures var p := SplitSchema(s);
      && s == SchemaText(p.part) + p.rest
      && (p.part.Some? ==> p.part.value != "" && Without(p.part.value, ":/?#"))
      && (p.part.None? ==> p.rest == s)
  {
  }

  lemma SchemaJoins(part: Option<string>, rest: string)
    requires part.Some? ==> part.value != "" && Without(part.value, ":/?#")
    requires part.None? ==> SplitSchema(rest).part == None
    ensures SplitSchema(SchemaText(part) + rest) == Split(part, rest)
  {
    if part.Some? {
      var s := part.value + (":" + rest);
      assert SchemaText(part) + rest == s;
      FirstOfAppend(part.value, ":" + rest, ":/?#");
      assert s[..|part.value|] == part.value && s[|part.value| + 1..] == rest;
    } else {
      assert "" + rest == rest;
    }
  }

  lemma TwoSlashes(s: string)
    requires |s| >= 2 && s[0] == '/' && s[1] == '/'
    ensures "//" + s[2..] == s
  {
  }

  lemma AuthoritySplits(s: string)
    ensures var p := SplitAuthority(s);
      && s == Joined("//", p.part) + p.rest
      && (p.part.Some? ==> Without(p.part.value, "/?#") && (p.rest == "" || p.rest[0] in "/?#"))
      && (p.part.None? ==> !(|p.rest| >= 2 && p.rest[0] == '/' && p.rest[1] == '/'))
  {
    if |s| >= 2 && s[0] == '/' && s[1] == '/' {
      var t := s[2..];
      var k := FirstOf(t, "/?#");
      JoinedFront("//", t[..k], t[k..]);
      assert t[..k] + t[k..] == t;
      hide FirstOf, Joined, Without;
      TwoSlashes(s);
    }
  }

  lemma AuthorityJoins(part: Option<string>, rest: string)
    requires part.Some? ==> Without(part.value, "/?#") && (rest == "" || rest[0] in "/?#")
    requires part.None? ==> !(|rest| >= 2 && rest[0] == '/' && rest[1] == '/')
    ensures SplitAuthority(Joined("//", part) + rest) == Split(part, rest)
  {
    if part.Some? {
      var s := Joined("//", part) + rest;
      JoinedFront("//", part.value, rest);
      assert s[2..] == part.value + rest;
      FirstOfAppend(part.value, rest, "/?#");
      assert (part.value + rest)[..|part.value|] == part.value && (part.value + rest)[|part.value|..] == rest;
    } else {
      assert "" + rest == rest;
    }
  }

  lemma PathSplits(s: string)
    ensures var p := SplitPath(s);
      && p.part.Some? && s == p.part.value + p.rest && Without(p.part.value, "?#")
      && (p.rest == "" || p.rest[0] in "?#")
  {
  }

  lemma PathJoins(path: string, rest: string)
    requires Without(path, "?#") && (rest == "" || rest[0] in "?#")
    ensures SplitPath(path + rest) == Split(Some(path), rest)
  {
    FirstOfAppend(path, rest, "?#");
    assert (path + rest)[..|path|] == path && (path + rest)[|path|..] == rest;
  }

  lemma QuerySplits(s: string)
    requires s == "" || s[0] in "?#"
    ensures var p := SplitQuery(s);
      && s == Joined("?", p.part) + p.rest
      && (p.part.Some? ==> Without(p.part.value, "#"))
      && (p.rest == "" || p.rest[0] == '#')
  {
    if s != "" && s[0] == '?' {
      var t := s[1..];
      var k := FirstOf(t, "#");
      JoinedFront("?", t[..k], t[k..]);
      assert t[..k] + t[k..] == t;
      assert "?" + t == s;
      hide FirstOf, Joined;
    } else if s != "" {
      assert s[0] == '#';
    }
  }

  lemma QueryJoins(part: Option<string>, rest: string)
    requires part.Some? ==> Without(part.value, "#")
    requires rest == "" || rest[0] == '#'
    ensures SplitQuery(Joined("?", part) + rest) == Split(part, rest)
  {
    if part.Some? {
      var s := Joined("?", part) + rest;
      JoinedFront("?", part.value, rest);
      assert s[1..] == part.value + rest;
      FirstOfAppend(part.value, rest, "#");
      assert (part.value + rest)[..|part.value|] == part.value && (part.value + rest)[|part.value|..] == rest;
    } else {
      assert "" + rest == rest;
    }
  }

  // ------------------------------------------------------------------
  // The whole expression
  // ------------------------------------------------------------------

  /** For every text the expression matches, recomposing the parts gives the text back, and the parts are canonical. */
  lemma SplitComposes(s: string)
    requires FromString(s).Some?
    ensures Compose(FromString(s).value) == s && Canonical(FromString(s).value)
  {
    hide SplitSchema, SplitAuthority, SplitPath, SplitQuery;
    SchemaSplits(s);
    var rest := SplitSchema(s).rest;
    AuthoritySplits(rest);
    PathSplits(SplitAuthority(rest).rest);
    var tail := SplitPath(SplitAuthority(rest).rest).rest;
    QuerySplits(tail);
    var u := FromString(s).value;
    var last := SplitQuery(tail).rest;
    assert FragmentText(u) == last by {
      assert last != "" ==> last == "#" + last[1..];
    }
    assert AuthorityText(u) == rest;
    PathAfterAuthority(rest);
    NoSchemaLeft(s);
  }

  lemma PathAfterAuthority(s: string)
    ensures var a := SplitAuthority(s);
      var path := SplitPath(a.rest).part.value;
      && (a.part.Some? ==> path == "" || path[0] == '/')
      && (a.part.None? ==> !(|path| >= 2 && path[0] == '/' && path[1] == '/'))
  {
    AuthoritySplits(s);
    PathSplits(SplitAuthority(s).rest);
  }

  lemma NoSchemaLeft(s: string)
    ensures SplitSchema(s).part == None ==> SplitSchema(SplitSchema(s).rest).part == None
  {
  }

  /** And canonical parts survive printing and splitting: the two are inverse to each other. */
  lemma ComposeSplits(u: Uri)
    requires Canonical(u)
    ensures FromString(Compose(u)) == Some(u)
  {
    hide SplitSchema, SplitAuthority, SplitPath, SplitQuery, Without;
    SchemaJoins(u.schema, AuthorityText(u));
    TailStarts(u);
    AuthorityJoins(u.authority, PathText(u));
    PathJoins(u.path, QueryText(u));
    QueryJoins(u.query, FragmentText(u));
    FragmentJoins(u);
  }

  lemma TailStarts(u: Uri)
    requires Canonical(u)
    ensures QueryText(u) == "" || QueryText(u)[0] in "?#"
    ensures FragmentText(u) == "" || FragmentText(u)[0] == '#'
    ensures u.authority.Some? ==> PathText(u) == "" || PathText(u)[0] in "/?#"
    ensures u.authority.None? ==> !(|PathText(u)| >= 2 && PathText(u)[0] == '/' && PathText(u)[1] == '/')
  {
    hide SplitSchema;
    if u.path == "" {
      assert PathText(u) == QueryText(u);
    }
  }

  lemma FragmentJoins(u: Uri)
    requires u.fragment.Some? ==> Without(u.fragment.value, "\n")
    ensures SplitFragment(FragmentText(u)) == Some(u.fragment)
  {
    if u.fragment.Some? {
      assert FragmentText(u) == "#" + u.fragment.value;
      assert FragmentText(u)[1..] == u.fragment.value;
    }
  }

  // ------------------------------------------------------------------
  // Which texts match
  // ------------------------------------------------------------------

  /** What follows the first number sign, with it. */
  function HashTail(s: string): string {
    s[FirstOf(s, "#")..]
  }

  lemma HashTailSkips(a: string, b: string)
    requires Without(a, "#")
    ensures HashTail(a + b) == HashTail(b)
  {
    FirstOfAppend(a, b, "#");
    var k := FirstOf(b, "#");
    assert (a + b)[|a| + k..] == b[k..];
  }

  lemma JoinedWithout(before: string, part: Option<string>)
    requires part.Some? ==> Without(part.value, "#")
    requires Without(before, "#")
    ensures Without(Joined(before, part), "#") && Without(SchemaText(part), "#")
  {
  }

  lemma StricterWithout(s: string, stops: string)
    requires Without(s, stops) && '#' in stops
    ensures Without(s, "#")
  {
  }

  /** The expression fails exactly on a newline after the first number sign. */
  lemma MatchesIff(s: string)
    ensures FromString(s).Some? <==> HashTail(s) == "" || Without(HashTail(s)[1..], "\n")
  {
    hide SplitSchema, SplitAuthority, SplitPath, SplitQuery, Joined, SchemaText, HashTail, Without;
    var schema := SplitSchema(s);
    SchemaSplits(s);
    if schema.part.Some? {
      StricterWithout(schema.part.value, ":/?#");
    }
    PlainMarks();
    JoinedWithout("", schema.part);
    HashTailSkips(SchemaText(schema.part), schema.rest);
    var authority := SplitAuthority(schema.rest);
    AuthoritySplits(schema.rest);
    if authority.part.Some? {
      StricterWithout(authority.part.value, "/?#");
    }
    JoinedWithout("//", authority.part);
    HashTailSkips(Joined("//", authority.part), authority.rest);
    var path := SplitPath(authority.rest);
    PathSplits(authority.rest);
    StricterWithout(path.part.value, "?#");
    HashTailSkips(path.part.value, path.rest);
    var query := SplitQuery(path.rest);
    QuerySplits(path.rest);
    JoinedWithout("?", query.part);
    HashTailSkips(Joined("?", query.part), query.rest);
    HashTailStart(query.rest);
  }

  lemma PlainMarks()
    ensures Without("", "#") && Without(":", "#") && Without("//", "#") && Without("?", "#")
  {
  }

  lemma HashTailStart(s: string)
    requires s == "" || s[0] == '#'
    ensures HashTail(s) == s
  {
  }

  // ------------------------------------------------------------------
  // Concrete kinds
  // ------------------------------------------------------------------

  datatype FileUri = FileUri(path: string) {
    static function FromUri(u: Uri): FileUri { FileUri(u.path) }

    function CreateFile(name: string): FileUri { FileUri(path + "/" + name) }

    function ToString(): string { "file://" + path }
  }

  datatype HdfsUri = HdfsUri(path: string, authority: Option<string>) {
    static function FromUri(u: Uri): HdfsUri { HdfsUri(u.path, u.authority) }

    function CreateFile(name: string): HdfsUri { HdfsUri(path + "/" + name, authority) }

    /** An empty authority counts as none. */
    function Host(): string { if authority.Some? then authority.value else "" }

    function ToString(): string { "hdfs://" + Host() + path }
  }

  /** A path a printer can follow an authority with. */
  predicate PlainPath(path: string) {
    Without(path, "?#") && (path == "" || path[0] == '/')
  }

  function Printed(schema: string, authority: string, path: string): Uri {
    Uri(Some(schema), Some(authority), path, None, None)
  }

  lemma PrintedText(schema: string, authority: string, path: string)
    ensures Compose(Printed(schema, authority, path)) == schema + "://" + authority + path
  {
    var u := Printed(schema, authority, path);
    assert QueryText(u) == "" && PathText(u) == path;
    assert Compose(u) == (schema + ":") + (("//" + authority) + path);
    assert (schema + ":") + (("//" + authority) + path) == schema + "://" + authority + path;
  }

  /** Reading what was printed: the authority and path come back exactly when both are plain. */
  lemma PrintedBackIff(schema: string, authority: string, path: string)
    requires schema != "" && Without(schema, ":/?#")
    ensures var u := FromString(schema + "://" + authority + path);
      u.Some? && u.value.path == path && u.value.authority == Some(authority)
      <==> Without(authority, "/?#") && PlainPath(path)
  {
    var s, u := schema + "://" + authority + path, Printed(schema, authority, path);
    PrintedText(schema, authority, path);
    if Without(authority, "/?#") && PlainPath(path) {
      assert Without(path, "?#");
      ComposeSplits(u);
    }
    if FromString(s).Some? && FromString(s).value.path == path && FromString(s).value.authority == Some(authority) {
      SplitComposes(s);
    }
  }

  /** parse(print(f)) is f exactly when the path is empty or starts with a slash and has neither ? nor #. */
  lemma FileRoundTripIff(f: FileUri)
    ensures var u := FromString(f.ToString());
      (u.Some? && u.value.schema == Some("file") && FileUri.FromUri(u.value) == f) <==> PlainPath(f.path)
  {
    hide FromString, SplitSchema;
    assert f.ToString() == "file" + "://" + "" + f.path;
    FileAuthority(f.path);
    PrintedBackIff("file", "", f.path);
    PrintedPath("file", "", f.path);
  }

  /** The schema of a printed text is read back. */
  lemma PrintedSchema(schema: string, authority: string, path: string)
    requires schema != "" && Without(schema, ":/?#")
    ensures SplitSchema(schema + "://" + authority + path) == Split(Some(schema), "//" + authority + path)
  {
    assert SchemaText(Some(schema)) + ("//" + authority + path) == schema + "://" + authority + path;
    SchemaJoins(Some(schema), "//" + authority + path);
  }

  /** With nothing printed between the slashes and the path, a path that is read back comes with the empty authority. */
  lemma FileAuthority(path: string)
    ensures var u := FromString("file" + "://" + "" + path);
      u.Some? && u.value.path == path ==> u.value.authority == Some("")
  {
    PrintedPath("file", "", path);
  }

  /** After two slashes the reader finds an authority; the path is what is left up to the query. */
  lemma PrintedPath(schema: string, authority: string, path: string)
    requires schema != "" && Without(schema, ":/?#")
    ensures var s := schema + "://" + authority + path;
      FromString(s).Some? ==>
        var u := FromString(s).value;
        && u.schema == Some(schema) && u.authority.Some?
        && |u.authority.value| + |u.path| <= |authority| + |path|
        && (authority + path)[..|u.authority.value|] == u.authority.value
  {
    hide SplitSchema, SplitAuthority, SplitPath, SplitQuery, SplitFragment, Without;
    PrintedSchema(schema, authority, path);
    assert "//" + authority + path == "//" + (authority + path);
    AuthorityFound(authority + path);
    PathSplits(SplitAuthority("//" + (authority + path)).rest);
  }

  lemma AuthorityFound(s: string)
    ensures var a := SplitAuthority("//" + s);
      a.part.Some? && s == a.part.value + a.rest
  {
    assert ("//" + s)[2..] == s;
  }

  /** The same for HDFS, where no authority and an empty one print alike. */
  lemma HdfsRoundTripIff(h: HdfsUri)
    ensures var u := FromString(h.ToString());
      (u.Some? && u.value.schema == Some("hdfs")
        && HdfsUri.FromUri(u.value).path == h.path && HdfsUri.FromUri(u.value).Host() == h.Host())
      <==> Without(h.Host(), "/?#") && PlainPath(h.path)
  {
    assert h.ToString() == "hdfs" + "://" + h.Host() + h.path;
    PrintedBackIff("hdfs", h.Host(), h.path);
    PrintedSchema("hdfs", h.Host(), h.path);
    PrintedPath("hdfs", h.Host(), h.path);
  }

  lemma Longer(front: string, path: string, name: string)
    ensures front + (path + "/" + name) == front + path + "/" + name
  {
  }

  /** A created file's URI is the old one with a slash and the name behind it, on the same host. */
  lemma CreateFilePrints(f: FileUri, h: HdfsUri, name: string)
    ensures f.CreateFile(name).ToString() == f.ToString() + "/" + name
    ensures h.CreateFile(name).ToString() == h.ToString() + "/" + name && h.CreateFile(name).authority == h.authority
  {
    Longer("file://", f.path, name);
    Longer("hdfs://" + h.Host(), h.path, name);
  }

  /** Creating a file below a readable URI gives a readable URI, if the name is plain. */
  lemma CreateFileKeepsPlain(f: FileUri, h: HdfsUri, name: string)
    requires Without(name, "?#")
    ensures PlainPath(f.path) ==> PlainPath(f.CreateFile(name).path)
    ensures PlainPath(h.path) ==> PlainPath(h.CreateFile(name).path)
  {
  }

  // ------------------------------------------------------------------
  // EGGROLL
  // ------------------------------------------------------------------

  const NAME_MAX: nat := 128

  /** split("/"). */
  function Pieces(s: string): (r: seq<string>)
    ensures |r| >= 1
    decreases |s|
  {
    var k := FirstOf(s, "/");
    if k == |s| then [s] else [s[..k]] + Pieces(s[k + 1..])
  }

  function JoinWith(pieces: seq<string>, sep: char): string {
    if pieces == [] then ""
    else if |pieces| == 1 then pieces[0]
    else pieces[0] + [sep] + JoinWith(pieces[1..], sep)
  }

  lemma {:induction false} PiecesJoin(s: string)
    ensures JoinWith(Pieces(s), '/') == s
    ensures forall i :: 0 <= i < |Pieces(s)| ==> Without(Pieces(s)[i], "/") && (Without(s, "?#") ==> Without(Pieces(s)[i], "?#"))
    decreases |s|
  {
    var k := FirstOf(s, "/");
    if k < |s| {
      PiecesJoin(s[k + 1..]);
      assert Pieces(s)[1..] == Pieces(s[k + 1..]);
      assert s == s[..k] + ['/'] + s[k + 1..];
    }
  }

  lemma {:induction false} JoinLength(pieces: seq<string>, a: char, b: char)
    ensures |JoinWith(pieces, a)| == |JoinWith(pieces, b)|
  {
    if |pieces| > 1 {
      JoinLength(pieces[1..], a, b);
    }
  }

  lemma {:induction false} JoinWithout(pieces: seq<string>, sep: char, stops: string)
    requires sep !in stops && forall i :: 0 <= i < |pieces| ==> Without(pieces[i], stops)
    ensures Without(JoinWith(pieces, sep), stops)
  {
    if |pieces| > 1 {
      JoinWithout(pieces[1..], sep, stops);
    }
  }

  /** hash stands for md5's hexadecimal digest; nothing is assumed of it. */
  function Shortened(name: string, hash: string -> string): string {
    if |name| > NAME_MAX then
      var h := hash(name);
      if |h| > NAME_MAX then h[..NAME_MAX] else h
    else name
  }

  datatype EggrollUri = EggrollUri(namespace: string, name: string) {
    /** None is the ValueError of a path with fewer than two pieces. */
    static function FromUri(u: Uri, hash: string -> string): Option<EggrollUri> {
      var pieces := Pieces(u.path);
      if |pieces| < 2 then None
      else Some(EggrollUri(pieces[1], Shortened(JoinWith(pieces[2..], '_'), hash)))
    }

    function CreateFile(file: string, hash: string -> string): EggrollUri {
      EggrollUri(namespace, Shortened(name + "_" + file, hash))
    }

    function Path(): string { "/" + namespace + "/" + name }

    function ToString(): string { "eggroll://" + Path() }
  }

  /** Reading and creating keep names within the limit, and a short name is kept as it is. */
  lemma NamesStayShort(u: Uri, e: EggrollUri, file: string, hash: string -> string)
    ensures EggrollUri.FromUri(u, hash).Some? ==> |EggrollUri.FromUri(u, hash).value.name| <= NAME_MAX
    ensures |e.CreateFile(file, hash).name| <= NAME_MAX
    ensures |e.name| + 1 + |file| <= NAME_MAX ==> e.CreateFile(file, hash).name == e.name + "_" + file
    ensures |e.name| + 1 + |file| > NAME_MAX && |hash(e.name + "_" + file)| <= NAME_MAX ==>
      e.CreateFile(file, hash).name == hash(e.name + "_" + file)
    ensures e.CreateFile(file, hash).namespace == e.namespace
  {
  }

  /** The path read back from a printed path that starts with a slash. */
  lemma SlashPathBack(schema: string, path: string)
    requires schema != "" && Without(schema, ":/?#") && path != "" && path[0] == '/'
    ensures var s := schema + "://" + path;
      FromString(s).Some? ==>
        FromString(s).value.schema == Some(schema) && FromString(s).value.path == path[..FirstOf(path, "?#")]
  {
    hide SplitSchema, SplitQuery, SplitFragment;
    assert schema + "://" + path == schema + "://" + "" + path;
    PrintedSchema(schema, "", path);
    assert "//" + "" + path == "//" + path;
    assert ("//" + path)[2..] == path;
    assert path[..0] == "" && path[0..] == path;
    assert SplitAuthority("//" + path) == Split(Some(""), path);
  }

  /** What the pieces of a path starting with a slash are. */
  lemma SlashPieces(path: string)
    requires path != "" && path[0] == '/'
    ensures Pieces(path) == [""] + Pieces(path[1..])
  {
    assert FirstOf(path, "/") == 0;
    assert path[..0] == "";
  }

  lemma TwoPieces(a: string, b: string)
    requires Without(a, "/")
    ensures Pieces(a + "/" + b) == [a] + Pieces(b)
  {
    var s := a + "/" + b;
    assert s == a + ("/" + b);
    FirstOfAppend(a, "/" + b, "/");
    assert s[..|a|] == a && s[|a| + 1..] == b;
  }

  lemma OnePiece(s: string)
    requires Without(s, "/")
    ensures Pieces(s) == [s]
  {
    assert FirstOf(s, "/") == |s|;
  }

  lemma EggrollPieces(e: EggrollUri)
    requires Without(e.namespace, "/") && Without(e.name, "/")
    ensures Pieces(e.Path()) == ["", e.namespace, e.name]
  {
    hide Pieces;
    SlashPieces(e.Path());
    assert e.Path()[1..] == e.namespace + "/" + e.name;
    TwoPieces(e.namespace, e.name);
    OnePiece(e.name);
  }

  lemma FewerStops(s: string)
    requires Without(s, "/?#")
    ensures Without(s, "/") && Without(s, "?#")
  {
  }

  lemma PlainEggrollBack(e: EggrollUri, hash: string -> string)
    requires Without(e.namespace, "/?#") && Without(e.name, "/?#") && |e.name| <= NAME_MAX
    ensures var u := FromString(e.ToString());
      u.Some? && u.value.schema == Some("eggroll") && EggrollUri.FromUri(u.value, hash) == Some(e)
  {
    hide FromString, Canonical, Pieces, Compose;
    var u := Printed("eggroll", "", e.Path());
    FewerStops(e.namespace);
    FewerStops(e.name);
    PrintedText("eggroll", "", e.Path());
    assert e.ToString() == "eggroll" + "://" + "" + e.Path();
    PrintedCanonical("eggroll", "", e.Path());
    ComposeSplits(u);
    EggrollPieces(e);
    assert ["", e.namespace, e.name][2..] == [e.name];
  }

  lemma PrintedCanonical(schema: string, authority: string, path: string)
    requires schema != "" && Without(schema, ":/?#") && Without(authority, "/?#") && PlainPath(path)
    ensures Canonical(Printed(schema, authority, path))
  {
    hide SplitSchema;
  }

  /** What is read back has plain parts within the limit, unless the name was hashed. */
  lemma EggrollReadIsPlain(u: Uri, hash: string -> string)
    requires Without(u.path, "?#") && u.path != "" && u.path[0] == '/' && EggrollUri.FromUri(u, hash).Some?
    ensures var e := EggrollUri.FromUri(u, hash).value;
      && Without(e.namespace, "/?#")
      && (|u.path| <= 2 + |e.namespace| + NAME_MAX ==> Without(e.name, "/?#") && |e.name| <= NAME_MAX)
  {
    var pieces := Pieces(u.path);
    PiecesJoin(u.path);
    SlashPieces(u.path);
    assert pieces[0] == "";
    var names := pieces[2..];
    forall i | 0 <= i < |pieces| ensures Without(pieces[i], "/?#") {
      assert Without(pieces[i], "/") && Without(pieces[i], "?#");
    }
    JoinWithout(names, '_', "/?#");
    JoinLength(names, '_', '/');
    assert pieces[1..][1..] == names;
    if names != [] {
      assert JoinWith(pieces[1..], '/') == pieces[1] + ['/'] + JoinWith(names, '/');
    }
  }

  /** Printing and reading an EGGROLL URI is the identity exactly when neither part has a slash, ? or # and the name is
      within the limit. */
  lemma EggrollRoundTripIff(e: EggrollUri, hash: string -> string)
    ensures var u := FromString(e.ToString());
      (u.Some? && u.value.schema == Some("eggroll") && EggrollUri.FromUri(u.value, hash) == Some(e))
      <==> Without(e.namespace, "/?#") && Without(e.name, "/?#") && |e.name| <= NAME_MAX
  {
    if Without(e.namespace, "/?#") && Without(e.name, "/?#") && |e.name| <= NAME_MAX {
      PlainEggrollBack(e, hash);
    }
    var u := FromString(e.ToString());
    if u.Some? && EggrollUri.FromUri(u.value, hash) == Some(e) {
      EggrollBackIsPlain(e, u.value, hash);
    }
  }

  lemma EggrollBackIsPlain(e: EggrollUri, u: Uri, hash: string -> string)
    requires FromString(e.ToString()) == Some(u) && EggrollUri.FromUri(u, hash) == Some(e)
    ensures Without(e.namespace, "/?#") && Without(e.name, "/?#") && |e.name| <= NAME_MAX
  {
    hide FromString;
    assert e.ToString() == "eggroll" + "://" + e.Path();
    SlashPathBack("eggroll", e.Path());
    NamesStayShort(u, e, "", hash);
    assert |u.path| <= |e.Path()|;
    assert u.path != "" && u.path[0] == '/' by {
      assert e.Path()[0] == '/';
    }
    EggrollReadIsPlain(u, hash);
  }

  lemma {:induction false} JoinPieces(pieces: seq<string>)
    requires pieces != [] && forall i :: 0 <= i < |pieces| ==> Without(pieces[i], "/")
    ensures Pieces(JoinWith(pieces, '/')) == pieces
  {
    hide Pieces;
    if |pieces| == 1 {
      OnePiece(pieces[0]);
    } else {
      JoinPieces(pieces[1..]);
      assert JoinWith(pieces, '/') == pieces[0] + "/" + JoinWith(pieces[1..], '/');
      TwoPieces(pieces[0], JoinWith(pieces[1..], '/'));
    }
  }

  /** Reading a path: its first piece is the namespace, and the others, joined by underscores, the name, or the name's
      digest if it is too long; without a slash behind the first there is no URI. */
  lemma EggrollReads(u: Uri, space: string, names: seq<string>, hash: string -> string)
    requires Without(space, "/") && forall i :: 0 <= i < |names| ==> Without(names[i], "/")
    requires u.path == JoinWith(["", space] + names, '/')
    ensures var name := JoinWith(names, '_');
      && (|name| <= NAME_MAX ==> EggrollUri.FromUri(u, hash) == Some(EggrollUri(space, name)))
      && (|name| > NAME_MAX && |hash(name)| <= NAME_MAX ==> EggrollUri.FromUri(u, hash) == Some(EggrollUri(space, hash(name))))
  {
    var all := ["", space] + names;
    JoinPieces(all);
    assert all[2..] == names;
  }

  lemma EggrollNeedsTwo(u: Uri, hash: string -> string)
    ensures EggrollUri.FromUri(u, hash) == None <==> Without(u.path, "/")
  {
    if Without(u.path, "/") {
      OnePiece(u.path);
    }
  }
}
