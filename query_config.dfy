/** The per-query configuration record and its defaults. */
module QueryConfig {

  /** `IocasteQueryConfig`: three independent flags. */
  datatype Config = Config(refetchOnWindowFocus: bool, refetchOnMount: bool, refetchOnNavigate: bool)

  /** `defaultIocasteQueryConfig`: every flag on. */
  const DefaultConfig: Config := Config(true, true, true)
}
