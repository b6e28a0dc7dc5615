/** The paths of the controller's JSON Patch `remove` operations: keys are escaped as RFC 6901 asks, and each path
    names the annotation it is meant to remove. */
module PatchPaths {
  import opened Annotations

  /** Section 3 of RFC 6901: a tilde in a token is written ~0 and a slash ~1. */
  function Escape(key: string): string {
    if key == "" then "" else
    (if key[0] == '~' then "~0" else if key[0] == '/' then "~1" else key[..1]) + Escape(key[1..])
  }

  /** Replaces every ~c by r. */
  function Replace(s: string, c: char, r: char): string {
    if s == "" then "" else
    if |s| >= 2 && s[0] == '~' && s[1] == c then [r] + Replace(s[2..], c, r) else
    s[..1] + Replace(s[1..], c, r)
  }

  /** Section 4 of RFC 6901: first ~1 becomes a slash, then ~0 a tilde. */
  function Unescape(token: string): string {
    Replace(Replace(token, '1', '/'), '0', '~')
  }

  /** Tildes only. */
  function EscapeTildes(key: string): string {
    if key == "" then "" else (if key[0] == '~' then "~0" else key[..1]) + EscapeTildes(key[1..])
  }

  lemma {:induction false} SlashesComeBack(key: string)
    ensures Replace(Escape(key), '1', '/') == EscapeTildes(key)
  {
    if key != "" {
      var rest := Escape(key[1..]);
      SlashesComeBack(key[1..]);
      if key[0] == '~' {
        assert ("~0" + rest)[1..] == "0" + rest;
        assert ("0" + rest)[1..] == rest;
        assert Replace("0" + rest, '1', '/') == "0" + Replace(rest, '1', '/');
      } else if key[0] == '/' {
        assert ("~1" + rest)[2..] == rest;
      } else {
        assert (key[..1] + rest)[1..] == rest;
      }
    }
  }

  lemma {:induction false} TildesComeBack(key: string)
    ensures Replace(EscapeTildes(key), '0', '~') == key
  {
    if key != "" {
      var rest := EscapeTildes(key[1..]);
      TildesComeBack(key[1..]);
      if key[0] == '~' {
        assert ("~0" + rest)[2..] == rest;
      } else {
        assert (key[..1] + rest)[1..] == rest;
      }
    }
  }

  /** Every key, whatever slashes and tildes it holds, comes back from its token. */
  lemma UnescapeInvertsEscape(key: string)
    ensures Unescape(Escape(key)) == key
  {
    SlashesComeBack(key);
    TildesComeBack(key);
  }

  // ---------- The controller's keys ----------

  const DOMAIN := "capk.cluster.x-k8s.io"
  const GRACE := "vmi-deletion-grace-time"
  const MIGRATION := "migration-submitted"
  const CORDON := "node-cordoned"

  function KeyText(k: Key): string {
    match k
    case GraceDeadline => DOMAIN + "/" + GRACE
    case MigrationSubmitted => DOMAIN + "/" + MIGRATION
    case NodeCordoned => DOMAIN + "/" + CORDON
    case Foreign(name) => name
  }

  const GRACE_TOKEN := DOMAIN + "~1" + GRACE
  const CORDON_TOKEN := DOMAIN + "~1" + CORDON

  predicate Plain(s: string) {
    forall i | 0 <= i < |s| :: s[i] != '~' && s[i] != '/'
  }

  lemma {:induction false} EscapeSlashed(a: string, b: string)
    requires Plain(a) && Plain(b)
    ensures Escape(a + "/" + b) == a + "~1" + b
    decreases |a|
  {
    var s := a + "/" + b;
    if a == "" {
      assert s[1..] == b;
      EscapePlain(b);
    } else {
      assert s[1..] == a[1..] + "/" + b;
      EscapeSlashed(a[1..], b);
    }
  }

  lemma {:induction false} EscapePlain(a: string)
    requires Plain(a)
    ensures Escape(a) == a
  {
    if a != "" {
      EscapePlain(a[1..]);
    }
  }

  /** The two hand-escaped tokens of the remove patches name the keys they are meant for. */
  lemma GraceTokenNamesItsKey()
    ensures Unescape(GRACE_TOKEN) == KeyText(GraceDeadline)
  {
    hide Escape, Unescape;
    EscapeSlashed(DOMAIN, GRACE);
    UnescapeInvertsEscape(KeyText(GraceDeadline));
  }

  lemma CordonTokenNamesItsKey()
    ensures Unescape(CORDON_TOKEN) == KeyText(NodeCordoned)
  {
    hide Escape, Unescape;
    EscapeSlashed(DOMAIN, CORDON);
    UnescapeInvertsEscape(KeyText(NodeCordoned));
  }

  lemma OwnKeysAreDistinct()
    ensures KeyText(GraceDeadline) != KeyText(MigrationSubmitted)
    ensures KeyText(GraceDeadline) != KeyText(NodeCordoned)
    ensures KeyText(MigrationSubmitted) != KeyText(NodeCordoned)
  {
    assert |KeyText(GraceDeadline)| == 45;
    assert |KeyText(MigrationSubmitted)| == 41;
    assert |KeyText(NodeCordoned)| == 35;
  }
}
