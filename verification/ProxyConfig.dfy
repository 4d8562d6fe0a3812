/** The description of the system-proxy toggle and its validation. */
module ProxyConfig {
  import opened Wrappers
  import opened Text
  import opened Rules

  /** `Unset` is the empty mode string of a zero Config. */
  datatype Mode = Unset | Off | Exclude | Include

  datatype Config = Config(
    mode: Mode,
    host: string,
    port: int,
    service: string,
    pacPort: int,
    bypassPlain: bool,
    proxy: seq<string>,
    direct: seq<string>)

  const ZERO := Config(Unset, "", 0, "", 0, false, [], [])

  /** The port of the standalone PAC agent that older configs still pin. */
  const LEGACY_PAC_PORT := 21080

  /** validateRuleEntrySyntax: only an entry with a '/' can be wrong. */
  predicate EntrySyntaxOk(e: string) {
    '/' !in e || ParseCidr(Lower(e)).Some?
  }

  predicate RulesValid(rules: seq<string>) {
    forall r :: r in rules ==> Trim(r) == "" || EntrySyntaxOk(Trim(r))
  }

  predicate Valid(c: Config) {
    && c.mode != Unset
    && Trim(c.service) != ""
    && (c.mode != Off ==>
          && Trim(c.host) != ""
          && 0 < c.port <= 65535
          && 0 <= c.pacPort <= 65535
          && !(c.pacPort != 0 && c.pacPort == c.port)
          && RulesValid(c.proxy)
          && RulesValid(c.direct)
          && (c.mode == Include ==> exists r :: r in c.proxy && Norm(r) != ""))
  }
}
