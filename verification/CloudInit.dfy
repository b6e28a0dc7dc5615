/** Insertion of the capk user into a cloud-init document, on the node trees of the YAML library: the key and
    the value of a mapping entry are neighbours in the mapping's content. */
module CloudInit {
  import opened Common

  datatype Kind = Document | Mapping | Sequence | Scalar | Alias

  datatype Yaml = Yaml(kind: Kind, value: string, headComment: string, content: seq<Yaml>)

  function Text(s: string): Yaml {
    Yaml(Scalar, s, "", [])
  }

  /** The user the controller logs in as, with its authorized key. */
  function CapkUser(key: string): Yaml {
    Yaml(Mapping, "", "",
         [Text("name"), Text("capk"),
          Text("gecos"), Text("CAPK User"),
          Text("sudo"), Text("ALL=(ALL) NOPASSWD:ALL"),
          Text("groups"), Text("users, admin"),
          Text("ssh_authorized_keys"), Yaml(Sequence, "", "", [Text(key)])])
  }

  function CapkUsers(key: string): Yaml {
    Yaml(Sequence, "", "", [CapkUser(key)])
  }

  // ---------- Recognizing a cloud-config ----------

  const MARK := "#cloud-config"

  /** Some line of the comment starts with the cloud-config mark. */
  predicate HasMark(comment: string) {
    exists i | 0 <= i < |comment| :: (i == 0 || comment[i - 1] == '\n') && MARK <= comment[i..]
  }

  /** The first comment of the document may hang on the document, on the mapping or on its first key. */
  function HeaderComment(root: Yaml): string
    requires |root.content| == 1 && root.content[0].content != []
  {
    if root.headComment != "" then root.headComment else
    if root.content[0].headComment != "" then root.content[0].headComment else
    root.content[0].content[0].headComment
  }

  predicate Recognized(root: Yaml) {
    && root.kind == Document && |root.content| == 1
    && root.content[0].kind == Mapping && root.content[0].content != []
    && HasMark(HeaderComment(root))
  }

  // ---------- Finding the users and the capk user ----------

  predicate IsUsers(sections: seq<Yaml>, i: int) {
    0 <= i < |sections| && i % 2 == 1 && sections[i].kind == Sequence && sections[i - 1].value == "users"
  }

  /** The first section that lists users, from index i on. */
  function FindUsers(sections: seq<Yaml>, i: nat): (r: Option<nat>)
    ensures r.Some? ==> i <= r.value && IsUsers(sections, r.value)
    ensures forall k :: i <= k < (if r.Some? then r.value else |sections|) ==> !IsUsers(sections, k)
    decreases |sections| - i
  {
    if i >= |sections| then None else
    if IsUsers(sections, i) then Some(i) else FindUsers(sections, i + 1)
  }

  /** The value of the first field called name, from index j on. */
  function NameFrom(fields: seq<Yaml>, j: nat): Option<string>
    decreases |fields| - j
  {
    if j >= |fields| then None else
    if j % 2 == 1 && fields[j - 1].value == "name" then Some(fields[j].value) else NameFrom(fields, j + 1)
  }

  predicate IsCapk(user: Yaml) {
    NameFrom(user.content, 0) == Some("capk")
  }

  /** The first user called capk, from index i on. */
  function FindCapk(users: seq<Yaml>, i: nat): (r: Option<nat>)
    ensures r.Some? ==> i <= r.value < |users| && IsCapk(users[r.value])
    ensures forall k :: i <= k < (if r.Some? then r.value else |users|) ==> !IsCapk(users[k])
    decreases |users| - i
  {
    if i >= |users| then None else
    if IsCapk(users[i]) then Some(i) else FindCapk(users, i + 1)
  }

  // ---------- The insertion ----------

  function WithCapkUser(users: seq<Yaml>, key: string): seq<Yaml> {
    match FindCapk(users, 0)
    case Some(i) => users[i := CapkUser(key)]
    case None => users + [CapkUser(key)]
  }

  function WithCapk(sections: seq<Yaml>, key: string): seq<Yaml> {
    match FindUsers(sections, 0)
    case Some(i) => sections[i := sections[i].(content := WithCapkUser(sections[i].content, key))]
    case None => sections + [Text("users"), CapkUsers(key)]
  }

  function Insert(root: Yaml, key: string): Yaml {
    if Recognized(root)
    then root.(content := [root.content[0].(content := WithCapk(root.content[0].content, key))])
    else root
  }

  /** The parsed user data; its nodes are edited in place. */
  class UserData {
    var root: Yaml

    constructor (parsed: Yaml)
      ensures root == parsed
    {
      root := parsed;
    }

    /** `renders` says whether the text of the capk user parses as YAML; if not, nothing is changed. */
    method AddCapkUser(key: string, renders: bool) returns (modified: bool)
      modifies this
      ensures modified <==> Recognized(old(root)) && renders
      ensures root == if modified then Insert(old(root), key) else old(root)
    {
      if !Recognized(root) || !renders {
        return false;
      }
      modified := true;
      var data := root.content[0];
      var u := 0;
      while u < |data.content| && !IsUsers(data.content, u)
        invariant 0 <= u <= |data.content|
        invariant FindUsers(data.content, u) == FindUsers(data.content, 0)
      {
        u := u + 1;
      }
      if u == |data.content| {
        root := root.(content := [data.(content := data.content + [Text("users"), CapkUsers(key)])]);
        return;
      }
      var users := data.content[u];
      var i := 0;
      while i < |users.content|
        invariant 0 <= i <= |users.content|
        invariant FindCapk(users.content, i) == FindCapk(users.content, 0)
      {
        var fields := users.content[i].content;
        var j := 0;
        while j < |fields|
          invariant 0 <= j <= |fields|
          invariant NameFrom(fields, j) == NameFrom(fields, 0)
        {
          if j % 2 == 1 && fields[j - 1].value == "name" {
            if fields[j].value == "capk" {
              users := users.(content := users.content[i := CapkUser(key)]);
              root := root.(content := [data.(content := data.content[u := users])]);
              return;
            }
            break;
          }
          j := j + 1;
        }
        i := i + 1;
      }
      users := users.(content := users.content + [CapkUser(key)]);
      root := root.(content := [data.(content := data.content[u := users])]);
    }
  }

  // ---------- What the insertion promises ----------

  lemma FirstCapk(users: seq<Yaml>, i: nat)
    requires i < |users| && IsCapk(users[i])
    requires forall k :: 0 <= k < i ==> !IsCapk(users[k])
    ensures FindCapk(users, 0) == Some(i)
  {
  }

  lemma FirstUsers(sections: seq<Yaml>, i: nat)
    requires IsUsers(sections, i)
    requires forall k :: 0 <= k < i ==> !IsUsers(sections, k)
    ensures FindUsers(sections, 0) == Some(i)
  {
  }

  lemma GeneratedUserIsCapk(key: string)
    ensures IsCapk(CapkUser(key))
  {
    var fields := CapkUser(key).content;
    assert fields[0].value == "name" && fields[1].value == "capk";
    assert NameFrom(fields, 0) == NameFrom(fields, 1);
  }

  /** The first user called capk is the generated one, and every other user keeps its content and place. */
  lemma CapkUserIsSet(users: seq<Yaml>, key: string)
    ensures var after := WithCapkUser(users, key);
            var i := FindCapk(after, 0);
            && i.Some? && after[i.value] == CapkUser(key)
            && i.value <= |users| <= |after|
            && after[..i.value] == users[..i.value]
            && (if i.value < |users| then after[i.value + 1..] == users[i.value + 1..] else |after| == |users| + 1)
  {
    GeneratedUserIsCapk(key);
    var r := FindCapk(users, 0);
    FirstCapk(WithCapkUser(users, key), if r.Some? then r.value else |users|);
  }

  lemma LastUserWins(users: seq<Yaml>, k1: string, k2: string)
    ensures WithCapkUser(WithCapkUser(users, k1), k2) == WithCapkUser(users, k2)
  {
    CapkUserIsSet(users, k1);
  }

  /** The YAML library pairs every key of a mapping with a value. */
  predicate Paired(sections: seq<Yaml>) {
    |sections| % 2 == 0
  }

  /** Which section holds the users afterwards, and that all other sections keep their content and place. */
  lemma SectionsAreKept(sections: seq<Yaml>, key: string)
    requires Paired(sections)
    ensures var after := WithCapk(sections, key);
            var i := FindUsers(after, 0);
            && Paired(after) && i.Some?
            && (FindUsers(sections, 0) == i || FindUsers(sections, 0) == None)
            && (i.value < |sections| ==>
                  && FindUsers(sections, 0) == i && |after| == |sections|
                  && after[i.value] == sections[i.value].(content := WithCapkUser(sections[i.value].content, key)))
            && (i.value >= |sections| ==>
                  && FindUsers(sections, 0) == None
                  && after == sections + [Text("users"), CapkUsers(key)] && i.value == |sections| + 1)
            && (forall k :: 0 <= k < |sections| && k != i.value ==> after[k] == sections[k])
  {
    var after := WithCapk(sections, key);
    var r := FindUsers(sections, 0);
    if r.Some? {
      forall k | 0 <= k < |sections| ensures IsUsers(after, k) <==> IsUsers(sections, k) {
      }
      FirstUsers(after, r.value);
    } else {
      forall k | 0 <= k < |sections| ensures !IsUsers(after, k) {
        assert !IsUsers(sections, k);
      }
      assert !IsUsers(after, |sections|);
      FirstUsers(after, |sections| + 1);
    }
  }

  lemma LastSectionWins(sections: seq<Yaml>, k1: string, k2: string)
    requires Paired(sections)
    ensures WithCapk(WithCapk(sections, k1), k2) == WithCapk(sections, k2)
  {
    hide CapkUser, FindCapk, WithCapkUser;
    SectionsAreKept(sections, k1);
    var i := FindUsers(WithCapk(sections, k1), 0).value;
    if i < |sections| {
      LastUserWins(sections[i].content, k1, k2);
    } else {
      OnlyUser(k1, k2);
    }
  }

  lemma OnlyUser(k1: string, k2: string)
    ensures WithCapkUser([CapkUser(k1)], k2) == [CapkUser(k2)]
  {
    LastUserWins([], k1, k2);
  }

  predicate WellFormed(root: Yaml) {
    Recognized(root) ==> Paired(root.content[0].content)
  }

  lemma InsertKeepsRecognition(root: Yaml, key: string)
    requires WellFormed(root)
    ensures Recognized(Insert(root, key)) <==> Recognized(root)
    ensures WellFormed(Insert(root, key))
  {
    if Recognized(root) {
      SectionsAreKept(root.content[0].content, key);
      var after := Insert(root, key);
      assert after.content[0].content[0] == root.content[0].content[0];
      assert HeaderComment(after) == HeaderComment(root);
    }
  }

  /** Last writer wins: the key inserted first leaves no trace, so inserting is idempotent too. */
  lemma LastKeyWins(root: Yaml, k1: string, k2: string)
    requires WellFormed(root)
    ensures Insert(Insert(root, k1), k2) == Insert(root, k2)
  {
    InsertKeepsRecognition(root, k1);
    if Recognized(root) {
      LastSectionWins(root.content[0].content, k1, k2);
    }
  }

  /** A mapping entry with the key users. */
  predicate UsersKey(sections: seq<Yaml>, i: int) {
    0 <= i < |sections| - 1 && i % 2 == 0 && sections[i].value == "users"
  }

  ghost predicate DuplicateUsers(sections: seq<Yaml>) {
    exists i, j :: UsersKey(sections, i) && UsersKey(sections, j) && i < j
  }

  /** The result holds the key users twice if and only if the input had it once, with a value that is not
      a list. */
  lemma UsersKeyIsDuplicatedIff(sections: seq<Yaml>, key: string)
    requires Paired(sections) && !DuplicateUsers(sections)
    ensures DuplicateUsers(WithCapk(sections, key)) <==>
            exists i :: UsersKey(sections, i) && sections[i + 1].kind != Sequence
  {
    var after := WithCapk(sections, key);
    SectionsAreKept(sections, key);
    var r := FindUsers(sections, 0);
    forall k | 0 <= k < |sections| - 1 ensures UsersKey(after, k) <==> UsersKey(sections, k) {
    }
    if r.Some? {
      assert UsersKey(sections, r.value - 1);
    } else {
      assert UsersKey(after, |sections|);
      if i :| UsersKey(sections, i) && sections[i + 1].kind != Sequence {
        assert UsersKey(after, i);
      }
      forall i | UsersKey(sections, i) ensures sections[i + 1].kind != Sequence {
        assert !IsUsers(sections, i + 1);
      }
    }
  }

  // ---------- What a login needs ----------

  /** The value of the first entry of a mapping with this key. */
  function Field(fields: seq<Yaml>, key: string): Option<Yaml> {
    if |fields| < 2 then None else if fields[0].value == key then Some(fields[1]) else Field(fields[2..], key)
  }

  /** A section that lists users: a sequence under the key users. */
  predicate ListsUsers(sections: seq<Yaml>, i: int) {
    0 < i < |sections| && i % 2 == 1 && sections[i - 1].value == "users" && sections[i].kind == Sequence
  }

  predicate CalledCapk(user: Yaml) {
    var name := Field(user.content, "name");
    name.Some? && name.value.value == "capk"
  }

  lemma {:induction false} NameIsAField(fields: seq<Yaml>, j: nat)
    requires j % 2 == 0 && j <= |fields|
    ensures var f := Field(fields[j..], "name");
            NameFrom(fields, j) == if f.Some? then Some(f.value.value) else None
    decreases |fields| - j
  {
    if j + 1 < |fields| {
      var rest := fields[j..];
      assert rest[0] == fields[j] && rest[1] == fields[j + 1] && rest[2..] == fields[j + 2..];
      assert NameFrom(fields, j) == NameFrom(fields, j + 1);
      if fields[j].value != "name" {
        assert NameFrom(fields, j + 1) == NameFrom(fields, j + 2);
        NameIsAField(fields, j + 2);
      }
    } else if j + 1 == |fields| {
      assert NameFrom(fields, j) == NameFrom(fields, j + 1);
    }
  }

  lemma CapkIsCalledCapk(user: Yaml)
    ensures IsCapk(user) <==> CalledCapk(user)
  {
    NameIsAField(user.content, 0);
    assert user.content[0..] == user.content;
  }

  /** The user may log in with exactly this key and do everything. */
  predicate MayLogIn(user: Yaml, key: string) {
    var keys, sudo, groups :=
      Field(user.content, "ssh_authorized_keys"), Field(user.content, "sudo"), Field(user.content, "groups");
    var gecos := Field(user.content, "gecos");
    && user == Yaml(Mapping, "", "", user.content) && |user.content| == 10 && CalledCapk(user)
    && keys == Some(Yaml(Sequence, "", "", [Yaml(Scalar, key, "", [])]))
    && sudo == Some(Yaml(Scalar, "ALL=(ALL) NOPASSWD:ALL", "", []))
    && groups == Some(Yaml(Scalar, "users, admin", "", []))
    && gecos == Some(Yaml(Scalar, "CAPK User", "", []))
  }

  lemma CapkUserMayLogIn(key: string)
    ensures MayLogIn(CapkUser(key), key)
  {
    var f := CapkUser(key).content;
    assert |f| == 10 && Field(f, "name") == Some(f[1]);
    var f1, f2, f3, f4 := f[2..], f[4..], f[6..], f[8..];
    assert f1[2..] == f2 && f2[2..] == f3 && f3[2..] == f4;
    assert f[0].value[0] == 'n' && f1[0].value[0] == 'g' && f1[0].value[1] == 'e';
    assert f2[0].value[0] == 's' && f2[0].value[1] == 'u' && f3[0].value[0] == 'g' && f3[0].value[1] == 'r';
    FieldSkips(f, "gecos");
    FieldSkips(f, "sudo");
    FieldSkips(f1, "sudo");
    FieldSkips(f, "groups");
    FieldSkips(f1, "groups");
    FieldSkips(f2, "groups");
    FieldSkips(f, "ssh_authorized_keys");
    FieldSkips(f1, "ssh_authorized_keys");
    FieldSkips(f2, "ssh_authorized_keys");
    FieldSkips(f3, "ssh_authorized_keys");
  }

  lemma FieldSkips(fields: seq<Yaml>, key: string)
    requires |fields| >= 2 && |fields[0].value| >= 2 && |key| >= 2
    requires fields[0].value[0] != key[0] || fields[0].value[1] != key[1]
    ensures Field(fields, key) == Field(fields[2..], key)
  {
  }

  /** The header of a cloud-config: some line of it starts with the mark. */
  ghost predicate MarksCloudConfig(comment: string) {
    exists a, b :: comment == a + "#cloud-config" + b && (a == "" || a[|a| - 1] == '\n')
  }

  lemma MarkIff(comment: string)
    ensures HasMark(comment) <==> MarksCloudConfig(comment)
  {
    if HasMark(comment) {
      var i :| 0 <= i < |comment| && (i == 0 || comment[i - 1] == '\n') && MARK <= comment[i..];
      var b := SplitAt(comment, MARK, i);
      assert comment == comment[..i] + "#cloud-config" + b;
    }
    if a, b :| comment == a + "#cloud-config" + b && (a == "" || a[|a| - 1] == '\n') {
      FoundAt(a, MARK, b);
      assert |MARK| == 13;
      var i := |a|;
      assert 0 <= i < |comment| && (i == 0 || comment[i - 1] == '\n') && MARK <= comment[i..];
    }
  }

  lemma SplitAt(s: string, m: string, i: nat) returns (b: string)
    requires i <= |s| && m <= s[i..]
    ensures s == s[..i] + m + b
  {
    b := s[i + |m|..];
  }

  lemma FoundAt(a: string, m: string, b: string)
    ensures m <= (a + m + b)[|a|..]
    ensures a != "" ==> (a + m + b)[|a| - 1] == a[|a| - 1]
  {
    assert (a + m + b)[|a|..] == m + b;
  }

  /** Which documents are recognized: one non-empty mapping, and the first comment found on the document, the
      mapping or its first key marks a cloud-config. */
  lemma RecognizedIff(root: Yaml)
    ensures Recognized(root) <==>
            && root.kind == Document && |root.content| == 1
            && root.content[0].kind == Mapping && |root.content[0].content| > 0
            && var comments :=
                 [root.headComment, root.content[0].headComment, root.content[0].content[0].headComment];
               exists i :: 0 <= i < 3 && MarksCloudConfig(comments[i]) && forall k :: 0 <= k < i ==> comments[k] == ""
  {
    if root.kind == Document && |root.content| == 1 && root.content[0].kind == Mapping &&
       |root.content[0].content| > 0 {
      var comments := [root.headComment, root.content[0].headComment, root.content[0].content[0].headComment];
      MarkIff(comments[0]);
      MarkIff(comments[1]);
      MarkIff(comments[2]);
      assert !MarksCloudConfig("");
    }
  }

  /** After the insertion into a recognized document the first user called capk of its first list of users may log
      in with the key. */
  lemma CapkMayLogIn(root: Yaml, key: string) returns (i: nat, j: nat)
    requires Recognized(root) && WellFormed(root)
    ensures var sections := Insert(root, key).content[0].content;
            && ListsUsers(sections, i) && (forall k :: 0 <= k < i ==> !ListsUsers(sections, k))
            && j < |sections[i].content| && MayLogIn(sections[i].content[j], key)
            && (forall k :: 0 <= k < j ==> !CalledCapk(sections[i].content[k]))
            && (i >= |root.content[0].content| ==> sections[i] == Yaml(Sequence, "", "", [sections[i].content[0]]))
  {
    hide CapkUser, MayLogIn, CalledCapk, WithCapk, WithCapkUser;
    var before := root.content[0].content;
    SectionsAreKept(before, key);
    CapkUserMayLogIn(key);
    var sections := WithCapk(before, key);
    i := FindUsers(sections, 0).value;
    var users := if i < |before| then before[i].content else [];
    CapkUserIsSet(users, key);
    j := FindCapk(WithCapkUser(users, key), 0).value;
    if i >= |before| {
      OnlyGeneratedUser(key);
    }
    forall k | 0 <= k < i ensures !ListsUsers(sections, k) {
      assert !IsUsers(sections, k);
    }
    forall k | 0 <= k < j ensures !CalledCapk(sections[i].content[k]) {
      CapkIsCalledCapk(sections[i].content[k]);
    }
  }

  lemma OnlyGeneratedUser(key: string)
    ensures WithCapkUser([], key) == [CapkUser(key)]
  {
  }

  /** The document around the sections stays as it is, and so does every document that is not recognized. */
  lemma DocumentIsKept(root: Yaml, key: string)
    ensures var after := Insert(root, key);
            && (!Recognized(root) ==> after == root)
            && (Recognized(root) ==>
                  && after == root.(content := after.content) && |after.content| == 1
                  && after.content[0] == root.content[0].(content := after.content[0].content)
                  && after.content[0].content == WithCapk(root.content[0].content, key))
  {
  }

  /** Different keys give different documents. */
  lemma InsertTellsKeysApart(root: Yaml, k1: string, k2: string)
    requires Recognized(root) && WellFormed(root)
    ensures Insert(root, k1) == Insert(root, k2) <==> k1 == k2
  {
    hide Insert, Recognized;
    var i1, j1 := CapkMayLogIn(root, k1);
    var i2, j2 := CapkMayLogIn(root, k2);
    if Insert(root, k1) == Insert(root, k2) {
      assert i1 == i2;
      assert j1 == j2;
    }
  }
}
