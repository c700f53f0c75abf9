/** The key-value store that keeps each value in a file named after its key. */
module LocalFs {
  import opened Common

  // ---- Keys and file names ----

  predicate ValidChar(c: char) {
    || 'a' <= c <= 'z' || 'A' <= c <= 'Z' || '0' <= c <= '9'
    || c == '-' || c == '_' || c == '.' || c == '/'
  }

  predicate ValidKey(key: string) {
    forall i :: 0 <= i < |key| ==> ValidChar(key[i])
  }

  /** What stands for a slash in a file name: a backslash, an x and two digits. */
  const ESCAPE: string := ['\\', 'x', '2', 'F']

  function Escaped(key: string): (name: string)
    ensures '/' !in name
  {
    if key == "" then "" else (if key[0] == '/' then ESCAPE else [key[0]]) + Escaped(key[1..])
  }

  predicate StartsEscape(s: string) {
    |s| >= 4 && s[0] == '\\' && s[1] == 'x' && s[2] == '2' && s[3] == 'F'
  }

  function Unescaped(name: string): string {
    if name == "" then ""
    else if StartsEscape(name) then ['/'] + Unescaped(name[4..])
    else [name[0]] + Unescaped(name[1..])
  }

  /** The key holds the escape sequence itself somewhere. */
  predicate HoldsEscape(key: string) {
    key != "" && (StartsEscape(key) || HoldsEscape(key[1..]))
  }

  /** Escaping keeps whether a text starts with the given characters of the escape sequence: what is
      put in begins with a backslash, which is not among them. */
  lemma {:induction false} EscapedPrefix(key: string, n: nat)
    ensures |Escaped(key)| >= |key|
    ensures n <= |key| && (forall i :: 0 <= i < n ==> key[i] != '/') ==>
      |Escaped(key)| >= n && Escaped(key)[..n] == key[..n]
    ensures n < |key| && (forall i :: 0 <= i < n ==> key[i] != '/') && key[n] == '/' ==>
      |Escaped(key)| > n && Escaped(key)[n] == '\\'
  {
    if key != "" {
      EscapedPrefix(key[1..], if n == 0 then 0 else n - 1);
      if n > 0 && key[0] != '/' {
        assert Escaped(key) == [key[0]] + Escaped(key[1..]);
      }
    }
  }

  /** Escaping makes no new escape sequence out of characters other than a slash. */
  lemma StartsEscapeKept(key: string)
    requires key != "" && key[0] != '/'
    ensures StartsEscape(Escaped(key)) <==> StartsEscape(key)
  {
    var k := FirstSlash(key, if |key| < 4 then |key| else 4);
    EscapedPrefix(key, k);
    if k < 4 && k == |key| {
      NoSlashStays(key);
    }
  }

  /** The first slash among the first `n` characters, or `n`. */
  lemma FirstSlash(key: string, n: nat) returns (k: nat)
    requires n <= |key|
    ensures k <= n && (forall i :: 0 <= i < k ==> key[i] != '/') && (k < n ==> key[k] == '/')
  {
    k := 0;
    while k < n && key[k] != '/'
      invariant k <= n && forall i :: 0 <= i < k ==> key[i] != '/'
    {
      k := k + 1;
    }
  }

  lemma {:induction false} NoSlashStays(key: string)
    requires forall i :: 0 <= i < |key| ==> key[i] != '/'
    ensures Escaped(key) == key
  {
    if key != "" {
      NoSlashStays(key[1..]);
      HeadTail(key);
    }
  }

  lemma UnescapeEscape(rest: string)
    ensures Unescaped(ESCAPE + rest) == ['/'] + Unescaped(rest)
  {
    Split(ESCAPE, rest);
    assert StartsEscape(ESCAPE + rest);
  }

  /** The replacement at listing time inverts the escape exactly on keys without the escape sequence;
      on all others it shortens the key. */
  lemma {:induction false} UnescapeInverts(key: string)
    ensures |Unescaped(Escaped(key))| <= |key|
    ensures HoldsEscape(key) ==> |Unescaped(Escaped(key))| < |key|
    ensures !HoldsEscape(key) ==> Unescaped(Escaped(key)) == key
  {
    if key != "" {
      UnescapeInverts(key[1..]);
      HeadTail(key);
      if key[0] == '/' {
        UnescapeEscape(Escaped(key[1..]));
      } else {
        StartsEscapeKept(key);
        assert Escaped(key)[1..] == Escaped(key[1..]);
        if StartsEscape(key) {
          UnescapeInverts(key[4..]);
          EscapedTail(key, 4);
        }
      }
    }
  }

  lemma {:induction false} EscapedTail(key: string, n: nat)
    requires n <= |key| && forall i :: 0 <= i < n ==> key[i] != '/'
    ensures |Escaped(key)| >= n && Escaped(key)[n..] == Escaped(key[n..])
  {
    if n > 0 {
      EscapedTail(key[1..], n - 1);
      Split([key[0]], Escaped(key[1..]));
    }
  }

  lemma {:induction false} ValidHoldsNoEscape(key: string)
    requires ValidKey(key)
    ensures !HoldsEscape(key)
  {
    if key != "" {
      ValidHoldsNoEscape(key[1..]);
    }
  }

  /** Different valid keys have different files. */
  lemma EscapeInjective(a: string, b: string)
    requires ValidKey(a) && ValidKey(b) && Escaped(a) == Escaped(b)
    ensures a == b
  {
    ValidHoldsNoEscape(a);
    ValidHoldsNoEscape(b);
    UnescapeInverts(a);
    UnescapeInverts(b);
  }

  lemma {:induction false} UnescapedHasName(name: string)
    requires '/' !in name
    ensures Escaped(Unescaped(name)) == name
  {
    if name != "" {
      if StartsEscape(name) {
        UnescapedHasName(name[4..]);
        assert name == ESCAPE + name[4..];
      } else {
        UnescapedHasName(name[1..]);
        HeadTail(name);
      }
    }
  }

  /** Lookups do not check keys: a key that holds the escape sequence shares its file with another
      key, and only such a key shares one with the key listed for its file. */
  lemma SharedFile(key: string)
    ensures Escaped(Unescaped(Escaped(key))) == Escaped(key)
    ensures Unescaped(Escaped(key)) != key <==> HoldsEscape(key)
  {
    UnescapedHasName(Escaped(key));
    UnescapeInverts(key);
  }

  // ---- The directory ----

  type Files = map<string, Bytes>

  /** Names that lead to the directory itself or its parent. */
  predicate IsDirectory(name: string) {
    name == "" || name == "." || name == ".."
  }

  predicate Exists(files: Files, name: string) {
    IsDirectory(name) || name in files
  }

  /** Keys that are kept in files. */
  predicate FileKey(key: string) {
    ValidKey(key) && !IsDirectory(key)
  }

  /** The directory and the answer after setting a key. */
  function SetFile(files: Files, key: string, value: Bytes, overwrite: bool): (Files, Result<()>) {
    var name := Escaped(key);
    if !ValidKey(key) || (overwrite && IsDirectory(name)) then (files, Err)
    else if overwrite then (files[name := value], Ok(()))
    else if Exists(files, name) then (files, Err)
    else (files[name := value], Err)
  }

  function GetFile(files: Files, key: string): Result<Option<Bytes>> {
    var name := Escaped(key);
    if IsDirectory(name) then Err else if name in files then Ok(Some(files[name])) else Ok(None)
  }

  function WithoutFile(files: Files, key: string): Files {
    files - {Escaped(key)}
  }

  function ListedKeys(files: Files): set<string> {
    set name | name in files :: Unescaped(name)
  }

  class LocalFs {
    var files: Files

    constructor ()
      ensures files == map[]
    {
      files := map[];
    }

    method Set(key: string, value: Bytes, overwrite: bool) returns (r: Result<()>)
      modifies this
      ensures (files, r) == SetFile(old(files), key, value, overwrite)
    {
      if !ValidKey(key) { return Err; }
      var name := Escaped(key);
      if overwrite || !Exists(files, name) {
        if IsDirectory(name) { return Err; }
        files := files[name := value];
      }
      if !overwrite && Exists(files, name) { return Err; }
      return Ok(());
    }

    method Get(key: string) returns (r: Result<Option<Bytes>>)
      ensures r == GetFile(files, key)
    {
      var name := Escaped(key);
      if !Exists(files, name) { return Ok(None); }
      if IsDirectory(name) { return Err; }
      return Ok(Some(files[name]));
    }

    /** One key per file, in the order the directory gives them. */
    method List() returns (keys: seq<string>)
      ensures (set k | k in keys) == ListedKeys(files) && |keys| == |files|
    {
      keys := [];
      var rest := files.Keys;
      while rest != {}
        invariant rest <= files.Keys && |keys| == |files.Keys| - |rest|
        invariant (set k | k in keys) == (set name | name in files.Keys - rest :: Unescaped(name))
        decreases rest
      {
        var name :| name in rest;
        assert files.Keys - (rest - {name}) == (files.Keys - rest) + {name};
        assert (set k | k in keys + [Unescaped(name)]) == (set k | k in keys) + {Unescaped(name)};
        rest := rest - {name};
        keys := keys + [Unescaped(name)];
      }
      assert files.Keys - rest == files.Keys && |files.Keys| == |files|;
    }

    method Delete(key: string) returns (r: Result<Option<Bytes>>)
      modifies this
      ensures r == GetFile(old(files), key)
      ensures files == if r.Ok? then WithoutFile(old(files), key) else old(files)
    {
      var name := Escaped(key);
      if !Exists(files, name) { return Ok(None); }
      if IsDirectory(name) { return Err; }
      r := Ok(Some(files[name]));
      files := files - {name};
    }
  }

  /** A key that cannot be set, and the key it shares its file with. */
  const REFUSED: string := ['a', '\\', 'x', '2', 'F', 'b']
  const LISTED: string := ['a', '/', 'b']

  /** A refused key that shares the file of a key reads and deletes what is set under that key. */
  lemma SharedFileAnswers(files: Files, refused: string, key: string, value: Bytes)
    requires !ValidKey(refused) && FileKey(key) && Escaped(refused) == Escaped(key)
    ensures SetFile(files, refused, value, true) == (files, Err)
    ensures GetFile(SetFile(files, key, value, true).0, refused) == Ok(Some(value))
    ensures WithoutFile(files, refused) == WithoutFile(files, key)
  {
    FileKeyHasFileName(key);
  }

  lemma RefusedKeySharesFile()
    ensures !ValidKey(REFUSED) && FileKey(LISTED) && Escaped(REFUSED) == Escaped(LISTED)
  {
    assert !ValidChar(REFUSED[1]);
    NoSlashStays(REFUSED);
    EscapeOfListed();
  }

  lemma EscapeOfListed()
    ensures Escaped(LISTED) == REFUSED
  {
    assert LISTED[1..] == ['/', 'b'] && ['/', 'b'][1..] == ['b'] && ['b'][1..] == "";
    assert Escaped(['b']) == ['b'];
    assert Escaped(['/', 'b']) == ESCAPE + ['b'];
  }

  // ---- Refinement of a finite map ----

  datatype Op = OpSet(key: string, value: Bytes) | OpGet(key: string) | OpList | OpDelete(key: string)

  datatype Reply = Done(result: Result<()>) | Value(found: Result<Option<Bytes>>) | Keys(keys: set<string>)

  /** An overwriting store on files. */
  function FileStep(files: Files, op: Op): (Files, Reply) {
    match op
    case OpSet(key, value) => (SetFile(files, key, value, true).0, Done(SetFile(files, key, value, true).1))
    case OpGet(key) => (files, Value(GetFile(files, key)))
    case OpList => (files, Keys(ListedKeys(files)))
    case OpDelete(key) =>
      (if GetFile(files, key).Ok? then WithoutFile(files, key) else files, Value(GetFile(files, key)))
  }

  function Lookup(m: map<string, Bytes>, key: string): Option<Bytes> {
    if key in m then Some(m[key]) else None
  }

  /** The finite map the store is meant to be. */
  function MapStep(m: map<string, Bytes>, op: Op): (map<string, Bytes>, Reply) {
    match op
    case OpSet(key, value) => (m[key := value], Done(Ok(())))
    case OpGet(key) => (m, Value(Ok(Lookup(m, key))))
    case OpList => (m, Keys(m.Keys))
    case OpDelete(key) => (m - {key}, Value(Ok(Lookup(m, key))))
  }

  function FileRun(files: Files, ops: seq<Op>): (Files, seq<Reply>)
    decreases |ops|
  {
    if ops == [] then (files, [])
    else
      var (files', reply) := FileStep(files, ops[0]);
      var (end, replies) := FileRun(files', ops[1..]);
      (end, [reply] + replies)
  }

  function MapRun(m: map<string, Bytes>, ops: seq<Op>): (map<string, Bytes>, seq<Reply>)
    decreases |ops|
  {
    if ops == [] then (m, [])
    else
      var (m', reply) := MapStep(m, ops[0]);
      var (end, replies) := MapRun(m', ops[1..]);
      (end, [reply] + replies)
  }

  predicate OnFileKey(op: Op) {
    op.OpList? || FileKey(op.key)
  }

  /** The files are those of the map, and no others. */
  ghost predicate Represents(files: Files, m: map<string, Bytes>) {
    && (forall key :: key in m ==> FileKey(key) && Escaped(key) in files && files[Escaped(key)] == m[key])
    && (forall name :: name in files ==> Unescaped(name) in m && Escaped(Unescaped(name)) == name)
  }

  lemma DirectoriesUnescape()
    ensures Unescaped("") == "" && Unescaped(".") == "." && Unescaped("..") == ".."
  {
    assert ".."[1..] == "." && "."[1..] == "";
  }

  lemma FileKeyHasFileName(key: string)
    requires FileKey(key)
    ensures !IsDirectory(Escaped(key)) && Unescaped(Escaped(key)) == key
  {
    ValidHoldsNoEscape(key);
    UnescapeInverts(key);
    DirectoriesUnescape();
  }

  lemma SameMembers(files: Files, m: map<string, Bytes>, key: string)
    requires Represents(files, m) && FileKey(key)
    ensures key in m <==> Escaped(key) in files
    ensures GetFile(files, key) == Ok(Lookup(m, key))
  {
    FileKeyHasFileName(key);
  }

  lemma FilesDiffer(a: string, b: string)
    requires FileKey(a) && FileKey(b) && a != b
    ensures Escaped(a) != Escaped(b)
  {
    if Escaped(a) == Escaped(b) {
      EscapeInjective(a, b);
    }
  }

  lemma SetRefines(files: Files, m: map<string, Bytes>, key: string, value: Bytes)
    requires Represents(files, m) && FileKey(key)
    ensures Represents(files[Escaped(key) := value], m[key := value])
  {
    FileKeyHasFileName(key);
    var files', m' := files[Escaped(key) := value], m[key := value];
    forall other | other in m'
      ensures FileKey(other) && Escaped(other) in files' && files'[Escaped(other)] == m'[other]
    {
      if other != key {
        FilesDiffer(other, key);
      }
    }
    forall name | name in files' ensures Unescaped(name) in m' && Escaped(Unescaped(name)) == name {
      assert name == Escaped(key) || name in files;
    }
  }

  lemma DeleteRefines(files: Files, m: map<string, Bytes>, key: string)
    requires Represents(files, m) && FileKey(key)
    ensures Represents(WithoutFile(files, key), m - {key})
  {
    FileKeyHasFileName(key);
    forall other | other in m && other != key ensures Escaped(other) != Escaped(key) {
      FilesDiffer(other, key);
    }
  }

  lemma ListRefines(files: Files, m: map<string, Bytes>)
    requires Represents(files, m)
    ensures ListedKeys(files) == m.Keys
  {
    forall key | key in m ensures key in ListedKeys(files) {
      FileKeyHasFileName(key);
    }
  }

  lemma StepRefines(files: Files, m: map<string, Bytes>, op: Op)
    requires Represents(files, m) && OnFileKey(op)
    ensures FileStep(files, op).1 == MapStep(m, op).1
    ensures Represents(FileStep(files, op).0, MapStep(m, op).0)
  {
    match op
    case OpSet(key, value) =>
      FileKeyHasFileName(key);
      SetRefines(files, m, key, value);
    case OpGet(key) => SameMembers(files, m, key);
    case OpList => ListRefines(files, m);
    case OpDelete(key) =>
      SameMembers(files, m, key);
      DeleteRefines(files, m, key);
  }

  /** Store refinement: every run of overwriting operations on file keys answers like the map. */
  lemma {:induction false} StoreRefinesMap(files: Files, m: map<string, Bytes>, ops: seq<Op>)
    requires Represents(files, m) && forall i :: 0 <= i < |ops| ==> OnFileKey(ops[i])
    ensures FileRun(files, ops).1 == MapRun(m, ops).1
    ensures Represents(FileRun(files, ops).0, MapRun(m, ops).0)
    decreases |ops|
  {
    if ops != [] {
      StepRefines(files, m, ops[0]);
      StoreRefinesMap(FileStep(files, ops[0]).0, MapStep(m, ops[0]).0, ops[1..]);
    }
  }

  /** The other valid keys are directories: no operation on them succeeds or changes anything. */
  lemma OtherKeysFail(files: Files, key: string, value: Bytes)
    requires ValidKey(key) && !FileKey(key)
    ensures SetFile(files, key, value, true) == (files, Err) && GetFile(files, key).Err?
  {
    NoSlashStays(key);
  }

  /** Which keys are valid: letters, digits, and four other characters. */
  lemma ValidIff(c: char)
    ensures ValidChar(c) <==>
      || c in "abcdefghijklmnopqrstuvwxyz" || c in "ABCDEFGHIJKLMNOPQRSTUVWXYZ" || c in "0123456789"
      || c == '-' || c == '_' || c == '.' || c == '/'
  {
  }

  /** An invalid key cannot be set; of the valid ones all but three have files. */
  lemma SetIff(files: Files, key: string, value: Bytes)
    ensures SetFile(files, key, value, true).1.Ok? <==>
      ValidKey(key) && key != "" && key != "." && key != ".."
    ensures SetFile(files, key, value, true).1.Err? ==> SetFile(files, key, value, true).0 == files
  {
    if ValidKey(key) {
      if FileKey(key) {
        FileKeyHasFileName(key);
      } else {
        NoSlashStays(key);
      }
    }
  }

  /** Setting without overwriting never succeeds, yet keeps the value of a new key. */
  lemma CreateReportsFailure(files: Files, key: string, value: Bytes)
    requires FileKey(key)
    ensures SetFile(files, key, value, false).1.Err?
    ensures GetFile(SetFile(files, key, value, false).0, key)
         == if GetFile(files, key) == Ok(None) then Ok(Some(value)) else GetFile(files, key)
  {
    FileKeyHasFileName(key);
  }
}
