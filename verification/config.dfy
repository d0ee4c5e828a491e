/**
 The recording settings the tray edits, and the store that persists them.

 The record mirrors the fields the tray binds to a menu. The store pairs the
 record with a count of the persistence calls made on it, so that "saves once"
 and "does not save" can be stated about every update.
 */
module Config {

  datatype Quality = Medium | High | VeryHigh | Ultra

  datatype Container = MKV | MP4 | WEBM | FLV

  /** The settings record; the output path is carried but never edited here. */
  datatype Config = Config(
    framerate: int,
    replayDurationSecs: int,
    quality: Quality,
    container: Container,
    replayPath: string
  )

  /** The fields a radio group can be bound to. */
  datatype Field = FramerateKey | ReplayDurationKey | QualityKey | ContainerKey

  /** A value of one of the bound fields. */
  datatype Value = Number(n: int) | QualityValue(q: Quality) | ContainerValue(c: Container)

  /** The fields holding a plain number: the only ones a typed-in custom value can be assigned to. */
  predicate Numeric(f: Field) {
    f == FramerateKey || f == ReplayDurationKey
  }

  /** `v` has the type of field `f`: the Rust type checker only accepts a value of the
      field's type wherever a field is assigned. */
  predicate Fits(f: Field, v: Value) {
    match f
    case FramerateKey => v.Number?
    case ReplayDurationKey => v.Number?
    case QualityKey => v.QualityValue?
    case ContainerKey => v.ContainerValue?
  }

  /** Reads field `f` of `c`. */
  function Get(c: Config, f: Field): (v: Value)
    ensures Fits(f, v)
  {
    match f
    case FramerateKey => Number(c.framerate)
    case ReplayDurationKey => Number(c.replayDurationSecs)
    case QualityKey => QualityValue(c.quality)
    case ContainerKey => ContainerValue(c.container)
  }

  /** Writes `v` into field `f` of `c`: that field reads back `v`, nothing else changes. */
  function Set(c: Config, f: Field, v: Value): (r: Config)
    requires Fits(f, v)
    ensures Get(r, f) == v
    ensures forall g :: g != f ==> Get(r, g) == Get(c, g)
    ensures r.replayPath == c.replayPath
  {
    match f
    case FramerateKey => c.(framerate := v.n)
    case ReplayDurationKey => c.(replayDurationSecs := v.n)
    case QualityKey => c.(quality := v.q)
    case ContainerKey => c.(container := v.c)
  }

  /** Two configurations are equal exactly when every bound field and the path agree. */
  lemma ConfigExtensional(c: Config, d: Config)
    ensures c == d <==> (forall f :: Get(c, f) == Get(d, f)) && c.replayPath == d.replayPath
  {
    if (forall f :: Get(c, f) == Get(d, f)) && c.replayPath == d.replayPath {
      assert Get(c, FramerateKey) == Get(d, FramerateKey);
      assert Get(c, ReplayDurationKey) == Get(d, ReplayDurationKey);
      assert Get(c, QualityKey) == Get(d, QualityKey);
      assert Get(c, ContainerKey) == Get(d, ContainerKey);
    }
  }

  /** Writing back the value a field already holds leaves the configuration as it was. */
  lemma SetGetIdentity(c: Config, f: Field)
    ensures Set(c, f, Get(c, f)) == c
  {
    ConfigExtensional(Set(c, f, Get(c, f)), c);
  }

  /** The shared configuration together with the number of times it was persisted. */
  datatype Store = Store(config: Config, saves: nat)

  /** One call to the store's persistence operation: the configuration is kept as it
      is and one more persistence call is counted. */
  function Save(s: Store): (r: Store)
    ensures r.config == s.config
    ensures r.saves == s.saves + 1
  {
    s.(saves := s.saves + 1)
  }
}
