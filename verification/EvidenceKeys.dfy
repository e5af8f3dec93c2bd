/** Evidence object keys: the printer, the validator, and the one relation a key stands for. */
module EvidenceKeys {
  import opened Collections
  import opened Stock

  // ----- splitting and joining -----

  function Split(s: string, sep: char): (r: seq<string>)
    ensures r != []
  {
    if s == [] then [""]
    else
      var rest := Split(s[1..], sep);
      if s[0] == sep then [""] + rest else [[s[0]] + rest[0]] + rest[1..]
  }

  function Join(parts: seq<string>, sep: char): string
    requires parts != []
  {
    if |parts| == 1 then parts[0] else parts[0] + [sep] + Join(parts[1..], sep)
  }

  lemma {:induction false} JoinSplit(s: string, sep: char)
    ensures Join(Split(s, sep), sep) == s
  {
    if s != [] {
      JoinSplit(s[1..], sep);
      var rest := Split(s[1..], sep);
      var r := Split(s, sep);
      if s[0] == sep {
        assert r[1..] == rest;
      } else {
        assert |rest| > 1 ==> r[1..] == rest[1..];
      }
    }
  }

  lemma {:induction false} SplitWord(word: string, sep: char, rest: string)
    requires sep !in word
    ensures Split(word, sep) == [word]
    ensures Split(word + [sep] + rest, sep) == [word] + Split(rest, sep)
  {
    if word == [] {
      assert (word + [sep] + rest)[1..] == rest;
    } else {
      SplitWord(word[1..], sep, rest);
      assert (word + [sep] + rest)[1..] == word[1..] + [sep] + rest;
      assert [word[0]] + word[1..] == word;
    }
  }

  lemma {:induction false} SplitJoin(parts: seq<string>, sep: char)
    requires parts != [] && forall i :: 0 <= i < |parts| ==> sep !in parts[i]
    ensures Split(Join(parts, sep), sep) == parts
  {
    if |parts| == 1 {
      SplitWord(parts[0], sep, []);
    } else {
      SplitJoin(parts[1..], sep);
      SplitWord(parts[0], sep, Join(parts[1..], sep));
    }
  }

  lemma {:induction false} SplitFree(s: string, sep: char)
    ensures forall i :: 0 <= i < |Split(s, sep)| ==> sep !in Split(s, sep)[i]
  {
    if s != [] {
      SplitFree(s[1..], sep);
    }
  }

  // ----- lexical path cleaning -----

  /** Path elements after dropping "" and "." and resolving "..". */
  function CleanParts(out: seq<string>, parts: seq<string>, rooted: bool): seq<string>
    decreases |parts|
  {
    if parts == [] then out
    else if parts[0] == "" || parts[0] == "." then CleanParts(out, parts[1..], rooted)
    else if parts[0] != ".." then CleanParts(out + [parts[0]], parts[1..], rooted)
    else if out != [] && out[|out| - 1] != ".." then CleanParts(out[..|out| - 1], parts[1..], rooted)
    else if rooted then CleanParts(out, parts[1..], rooted)
    else CleanParts(out + [".."], parts[1..], rooted)
  }

  function Clean(path: string): string
  {
    if path == "" then "."
    else
      var rooted := path[0] == '/';
      var out := CleanParts([], Split(path, '/'), rooted);
      if out == [] then (if rooted then "/" else ".") else (if rooted then "/" else "") + Join(out, '/')
  }

  lemma {:induction false} CleanPlain(out: seq<string>, parts: seq<string>)
    requires forall i :: 0 <= i < |parts| ==> parts[i] != "" && parts[i] != "." && parts[i] != ".."
    ensures CleanParts(out, parts, false) == out + parts
    decreases |parts|
  {
    if parts == [] {
      assert out + parts == out;
    } else {
      CleanPlain(out + [parts[0]], parts[1..]);
      assert out + [parts[0]] + parts[1..] == out + parts;
    }
  }

  // ----- keys -----

  predicate Alnum(c: char) { 'a' <= c <= 'z' || 'A' <= c <= 'Z' || '0' <= c <= '9' }

  /** 1 to 128 letters, digits, underscores or dashes, the first a letter or digit. */
  predicate ValidIdentifier(s: string)
  {
    && 1 <= |s| <= 128 && Alnum(s[0])
    && forall i :: 0 < i < |s| ==> Alnum(s[i]) || s[i] == '_' || s[i] == '-'
  }

  function KindName(kind: PhotoKind): string
  {
    match kind
    case InstallPhoto => "install"
    case RemovePhoto => "remove"
  }

  const EXTENSIONS: set<string> := {"jpg", "png", "webp"}

  datatype ImageType = Jpeg | Png | Webp

  function Extension(t: ImageType): string
  {
    match t
    case Jpeg => "jpg"
    case Png => "png"
    case Webp => "webp"
  }

  function KeyParts(p: Photo, token: string, t: ImageType): seq<string>
  {
    ["evidence", "v1", KindName(p.kind), p.order, p.cover, token + "." + Extension(t)]
  }

  /** Builds a key for a relation; the token and the image type must be acceptable. */
  function ObjectKey(p: Photo, t: Option<ImageType>, token: string, isToken: string -> bool): Option<string>
  {
    if !ValidIdentifier(p.order) || !ValidIdentifier(p.cover) || !isToken(token) || t.None? then None
    else Some(Join(KeyParts(p, token, t.value), '/'))
  }

  predicate ValidName(name: string, isToken: string -> bool)
  {
    var parts := Split(name, '.');
    |parts| == 2 && isToken(parts[0]) && parts[1] in EXTENSIONS
  }

  /** Whether a key belongs to exactly this kind, work order and cover. */
  predicate ValidateObjectKey(key: string, p: Photo, isToken: string -> bool)
  {
    var parts := Split(key, '/');
    && ValidIdentifier(p.order) && ValidIdentifier(p.cover)
    && key != "" && Clean(key) == key && key[0] != '/'
    && |parts| == 6 && parts[0] == "evidence" && parts[1] == "v1"
    && parts[2] == KindName(p.kind) && parts[3] == p.order && parts[4] == p.cover
    && ValidName(parts[5], isToken)
  }

  // ----- printer and validator agree -----

  lemma IdentifierIsPlain(s: string)
    requires ValidIdentifier(s)
    ensures '/' !in s && s != "" && s != "." && s != ".."
  {
  }

  lemma NameSplits(token: string, t: ImageType)
    requires '.' !in token && '/' !in token
    ensures Split(token + "." + Extension(t), '.') == [token, Extension(t)]
    ensures '/' !in token + "." + Extension(t)
    ensures |token + "." + Extension(t)| > 2
  {
    assert '.' !in Extension(t);
    SplitWord(token, '.', Extension(t));
    SplitWord(Extension(t), '.', []);
  }

  /** Every part of a built key is a plain path element. */
  lemma KeyPartsPlain(p: Photo, token: string, t: ImageType)
    requires ValidIdentifier(p.order) && ValidIdentifier(p.cover) && '.' !in token && '/' !in token
    ensures forall i :: 0 <= i < 6 ==> '/' !in KeyParts(p, token, t)[i]
    ensures forall i :: 0 <= i < 6 ==> KeyParts(p, token, t)[i] != "" && KeyParts(p, token, t)[i] != "." && KeyParts(p, token, t)[i] != ".."
  {
    IdentifierIsPlain(p.order);
    IdentifierIsPlain(p.cover);
    NameSplits(token, t);
    hide ValidIdentifier;
  }

  lemma KeyReadsBack(p: Photo, token: string, t: ImageType)
    requires ValidIdentifier(p.order) && ValidIdentifier(p.cover) && '.' !in token && '/' !in token
    ensures var key := Join(KeyParts(p, token, t), '/');
            Split(key, '/') == KeyParts(p, token, t) && Clean(key) == key && key != "" && key[0] != '/'
  {
    var parts := KeyParts(p, token, t);
    KeyPartsPlain(p, token, t);
    SplitJoin(parts, '/');
    CleanPlain([], parts);
    assert [] + parts == parts;
    assert Join(parts, '/') == parts[0] + ['/'] + Join(parts[1..], '/');
    assert Join(parts, '/')[0] == 'e';
    hide ValidIdentifier, Split, Join, CleanParts;
  }

  /** A key built for a relation validates for it. */
  lemma BuiltKeyValidates(p: Photo, t: ImageType, token: string, isToken: string -> bool)
    requires ValidIdentifier(p.order) && ValidIdentifier(p.cover) && isToken(token) && '.' !in token && '/' !in token
    ensures ObjectKey(p, Some(t), token, isToken).Some?
    ensures ValidateObjectKey(ObjectKey(p, Some(t), token, isToken).value, p, isToken)
  {
    KeyReadsBack(p, token, t);
    NameSplits(token, t);
    hide ValidIdentifier, Split, Join, Clean;
  }

  /** ... and for no other relation, whatever the key. */
  lemma KeyHasOneRelation(key: string, p: Photo, q: Photo, isToken: string -> bool)
    requires ValidateObjectKey(key, p, isToken) && ValidateObjectKey(key, q, isToken)
    ensures p == q
  {
    assert KindName(p.kind) == KindName(q.kind);
    assert KindName(InstallPhoto)[0] != KindName(RemovePhoto)[0];
    hide Split, Clean, ValidIdentifier, ValidName;
  }

  function ImageOf(extension: string): ImageType
  {
    if extension == "jpg" then Jpeg else if extension == "png" then Png else Webp
  }

  /** The validator accepts exactly what the printer prints for tokens without '/' and '.'; its
      path-cleaning and leading-slash checks exclude nothing more. */
  lemma ValidatedKeyIsBuilt(key: string, p: Photo, isToken: string -> bool)
    ensures ValidateObjectKey(key, p, isToken) <==>
            exists t, token :: '.' !in token && '/' !in token && ObjectKey(p, Some(t), token, isToken) == Some(key)
  {
    if ValidateObjectKey(key, p, isToken) {
      var parts := Split(key, '/');
      var name := Split(parts[5], '.');
      var t := ImageOf(name[1]);
      SplitFree(parts[5], '.');
      SplitFree(key, '/');
      JoinSplit(parts[5], '.');
      JoinSplit(key, '/');
      NameParts(parts[5], name);
      assert parts == KeyParts(p, name[0], t);
      hide Split, Join, Clean, ValidIdentifier;
      assert ObjectKey(p, Some(t), name[0], isToken) == Some(key);
    }
    if t, token :| '.' !in token && '/' !in token && ObjectKey(p, Some(t), token, isToken) == Some(key) {
      hide Split, Join, Clean, ValidIdentifier, ValidateObjectKey;
      BuiltKeyValidates(p, t, token, isToken);
    }
  }

  /** One letter or digit, then at most 127 letters, digits, underscores or dashes. */
  ghost predicate Word(s: string)
  {
    && 1 <= |s| <= 128 && s[0] != '_' && s[0] != '-'
    && forall c :: c in s ==> 'A' <= c <= 'Z' || 'a' <= c <= 'z' || '0' <= c <= '9' || c == '_' || c == '-'
  }

  lemma WordIs(s: string)
    ensures ValidIdentifier(s) <==> Word(s)
  {
    if ValidIdentifier(s) {
      forall c | c in s ensures Alnum(c) || c == '_' || c == '-' {
        var i :| 0 <= i < |s| && s[i] == c;
      }
    }
    if Word(s) {
      forall i | 0 <= i < |s| ensures Alnum(s[i]) || s[i] == '_' || s[i] == '-' { assert s[i] in s; }
    }
  }

  /** The text of a key, in one piece. */
  function KeyText(kind: PhotoKind, order: string, cover: string, token: string, extension: string): string
  {
    "evidence/v1/" + (if kind == InstallPhoto then "install" else "remove") + "/" + order + "/" + cover + "/" + token + "." + extension
  }

  lemma JoinSix(a: string, b: string, c: string, d: string, e: string, f: string)
    ensures Join([a, b, c, d, e, f], '/') == a + "/" + b + "/" + c + "/" + d + "/" + e + "/" + f
  {
    assert [a, b, c, d, e, f][1..] == [b, c, d, e, f] && [b, c, d, e, f][1..] == [c, d, e, f];
    assert [c, d, e, f][1..] == [d, e, f] && [d, e, f][1..] == [e, f] && [e, f][1..] == [f];
    assert Join([f], '/') == f;
    assert Join([e, f], '/') == e + ['/'] + f;
    assert Join([d, e, f], '/') == d + ['/'] + (e + ['/'] + f);
    assert Join([c, d, e, f], '/') == c + ['/'] + (d + ['/'] + (e + ['/'] + f));
    assert Join([b, c, d, e, f], '/') == b + ['/'] + (c + ['/'] + (d + ['/'] + (e + ['/'] + f)));
  }

  lemma BuiltText(p: Photo, t: ImageType, token: string)
    ensures Join(KeyParts(p, token, t), '/') == KeyText(p.kind, p.order, p.cover, token, Extension(t))
  {
    JoinSix("evidence", "v1", KindName(p.kind), p.order, p.cover, token + "." + Extension(t));
    var rest := p.order + "/" + p.cover + "/" + (token + "." + Extension(t));
    assert "evidence" + "/" + "v1" + "/" == "evidence/v1/";
    assert token + "." + Extension(t) == token + ("." + Extension(t));
    hide Join;
  }

  /** What a key looks like: the validator accepts exactly these texts. */
  lemma KeyByText(key: string, kind: PhotoKind, order: string, cover: string, isToken: string -> bool)
    ensures ValidateObjectKey(key, Photo(kind, order, cover), isToken) <==>
            Word(order) && Word(cover) &&
            exists token, extension ::
              && '.' !in token && '/' !in token && isToken(token) && extension in {"jpg", "png", "webp"}
              && key == KeyText(kind, order, cover, token, extension)
  {
    var p := Photo(kind, order, cover);
    ValidatedKeyIsBuilt(key, p, isToken);
    WordIs(order);
    WordIs(cover);
    hide ValidateObjectKey, ValidIdentifier, Word, KeyText, Join;
    if ValidateObjectKey(key, p, isToken) {
      var t, token :| '.' !in token && '/' !in token && ObjectKey(p, Some(t), token, isToken) == Some(key);
      BuiltText(p, t, token);
      assert Extension(t) in {"jpg", "png", "webp"};
    }
    if token, extension :| Word(order) && Word(cover) && '.' !in token && '/' !in token && isToken(token)
                           && extension in {"jpg", "png", "webp"} && key == KeyText(kind, order, cover, token, extension) {
      var t := if extension == "jpg" then Jpeg else if extension == "png" then Png else Webp;
      BuiltText(p, t, token);
      assert ObjectKey(p, Some(t), token, isToken) == Some(key);
    }
  }

  lemma NameParts(file: string, name: seq<string>)
    requires |name| == 2 && Join(name, '.') == file && name[1] in EXTENSIONS
    ensures file == name[0] + "." + Extension(ImageOf(name[1]))
    ensures '/' !in file ==> '/' !in name[0]
  {
    assert Join(name[1..], '.') == name[1];
    assert Join(name, '.') == name[0] + ['.'] + Join(name[1..], '.');
    hide Join;
  }

  /** The relation a key stands for, if any: what the ledger stores in place of the key's text. */
  function Relation(key: string, isToken: string -> bool): Option<Photo>
  {
    var parts := Split(key, '/');
    if |parts| != 6 then None
    else
      var p := Photo(if parts[2] == "install" then InstallPhoto else RemovePhoto, parts[3], parts[4]);
      if ValidateObjectKey(key, p, isToken) then Some(p) else None
  }

  lemma RelationIsExact(key: string, p: Photo, isToken: string -> bool)
    ensures Relation(key, isToken) == Some(p) <==> ValidateObjectKey(key, p, isToken)
  {
    if ValidateObjectKey(key, p, isToken) {
      assert KindName(InstallPhoto)[0] != KindName(RemovePhoto)[0];
      hide Split, Clean, ValidIdentifier, ValidName;
    }
  }
}
