/** The annotations of a KubevirtMachine and the patches the controller sends to change them. */
module Annotations {

  /** The three annotation keys the controller owns; every other key belongs to somebody else. */
  datatype Key = GraceDeadline | MigrationSubmitted | NodeCordoned | Foreign(name: string)

  /** An annotation value, seen the way the controller reads it: text that parses as an
      RFC 3339 timestamp (an instant in nanoseconds), or any other text. */
  datatype Value = Timestamp(instant: int) | Text(text: string)

  type Annotations = map<Key, Value>

  /** `Put` and `Clear` are merge patches (section 2 of RFC 7396: a null member removes the key and
      is ignored when the key is absent); `Remove` is the JSON Patch operation (section 4.2 of
      RFC 6902: the target must exist, or the whole patch is rejected). */
  datatype Patch = Put(key: Key, value: Value) | Clear(keys: set<Key>) | Remove(target: Key)

  predicate Applicable(p: Patch, a: Annotations) {
    p.Remove? ==> p.target in a
  }

  function Apply(p: Patch, a: Annotations): Annotations {
    match p
    case Put(key, value) => a[key := value]
    case Clear(keys) => a - keys
    case Remove(target) => a - {target}
  }

  /** What a patch does to each key: a put writes one key, the other two remove exactly the keys they name. */
  lemma PatchChangesItsKeys(p: Patch, a: Annotations, k: Key)
    ensures var b := Apply(p, a);
            match p
            case Put(key, value) =>
              if k == key then k in b && b[k] == value else (k in b <==> k in a) && (k in a ==> b[k] == a[k])
            case Clear(keys) => (k in b <==> k in a && k !in keys) && (k in b ==> b[k] == a[k])
            case Remove(target) => (k in b <==> k in a && k != target) && (k in b ==> b[k] == a[k])
  {
  }
}
