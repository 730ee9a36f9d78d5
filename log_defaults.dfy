/** The zero-value defaulting that both zerologger configurations apply in
    Validate: an empty level or a zero rotation setting gets a default, any
    other value (negative numbers included) is kept. */
module LogDefaults {

  const DefaultLevel := "info"
  const DefaultMaxSize: int := 512
  const DefaultMaxBackups: int := 10
  const DefaultMaxAge: int := 15

  /** The four settings Validate may overwrite. */
  datatype Rotation = Rotation(level: string, maxSize: int, maxBackups: int, maxAge: int)

  function Defaulted(r: Rotation): (d: Rotation)
    ensures r.level == "" ==> d.level == DefaultLevel
    ensures r.level != "" ==> d.level == r.level
    ensures r.maxSize == 0 ==> d.maxSize == DefaultMaxSize
    ensures r.maxSize != 0 ==> d.maxSize == r.maxSize
    ensures r.maxBackups == 0 ==> d.maxBackups == DefaultMaxBackups
    ensures r.maxBackups != 0 ==> d.maxBackups == r.maxBackups
    ensures r.maxAge == 0 ==> d.maxAge == DefaultMaxAge
    ensures r.maxAge != 0 ==> d.maxAge == r.maxAge
  {
    Rotation(
      if r.level == "" then DefaultLevel else r.level,
      if r.maxSize == 0 then DefaultMaxSize else r.maxSize,
      if r.maxBackups == 0 then DefaultMaxBackups else r.maxBackups,
      if r.maxAge == 0 then DefaultMaxAge else r.maxAge)
  }

  /** After defaulting no setting is at its zero value, so defaulting again
      changes nothing. */
  lemma DefaultedIdempotent(r: Rotation)
    ensures var d := Defaulted(r);
            d.level != "" && d.maxSize != 0 && d.maxBackups != 0 && d.maxAge != 0
            && Defaulted(d) == d
  {
  }

  /** A setting that is already set is never changed. */
  lemma DefaultedFixesSetConfigs(r: Rotation)
    ensures Defaulted(r) == r <==> r.level != "" && r.maxSize != 0 && r.maxBackups != 0 && r.maxAge != 0
  {
  }
}
