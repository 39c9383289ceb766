/** Which control plane machines match the control plane's specification. */
module MachineFilters {
  import opened Prelude

  /** A bootstrap config's specification: its version, and everything else. */
  datatype ConfigSpec = ConfigSpec(version: string, rest: string)

  datatype TemplateRef = TemplateRef(name: string, groupKind: string)

  datatype InfraObject = InfraObject(clonedFromName: Option<string>, clonedFromGroupKind: Option<string>)

  /** A machine as the filters see it. The config and the infrastructure object are those fetched
      for the machine, if they could be. */
  datatype Description = Description(
    version: Option<string>,
    hasConfigRef: bool,
    config: Option<ConfigSpec>,
    infra: Option<InfraObject>)

  /** The parts of the control plane's specification that machines are compared with. */
  datatype Wanted = Wanted(version: string, config: ConfigSpec, template: TemplateRef)

  function TrimV(s: string): string {
    if s != [] && s[0] == 'v' then s[1..] else s
  }

  predicate MatchesKubernetesVersion(kubernetesVersion: string, m: Description) {
    m.version.Some? && TrimV(m.version.value) == TrimV(kubernetesVersion)
  }

  function Blanked(c: ConfigSpec): ConfigSpec {
    c.(version := "")
  }

  /** A missing reference or config is not a mismatch; versions are compared elsewhere. */
  predicate MatchesBootstrapConfig(wanted: ConfigSpec, m: Description) {
    m.hasConfigRef && m.config.Some? ==> Blanked(m.config.value) == Blanked(wanted)
  }

  /** A missing object or annotation is not a mismatch. */
  predicate MatchesTemplateClonedFrom(template: TemplateRef, m: Description) {
    m.infra.Some? && m.infra.value.clonedFromName.Some? && m.infra.value.clonedFromGroupKind.Some? ==>
      && m.infra.value.clonedFromName.value == template.name
      && m.infra.value.clonedFromGroupKind.value == template.groupKind
  }

  predicate MatchesConfiguration(w: Wanted, m: Description) {
    && MatchesKubernetesVersion(w.version, m)
    && MatchesBootstrapConfig(w.config, m)
    && MatchesTemplateClonedFrom(w.template, m)
  }

  /** The filter blanks the version of the config it fetched, in place; asking again, or of the
      blanked config, gives the same answer. */
  lemma BlankingIsHarmless(w: Wanted, m: Description)
    requires m.config.Some?
    ensures MatchesConfiguration(w, m.(config := Some(Blanked(m.config.value)))) <==> MatchesConfiguration(w, m)
  {
  }

  /** A machine just made from the specification. Its bootstrap controller may fill in the version
      of its config; its config and infrastructure object may fail to be fetched later. */
  predicate ClonedFrom(w: Wanted, m: Description) {
    && m.version == Some(w.version) && m.hasConfigRef
    && (m.config.Some? ==> m.config.value.rest == w.config.rest)
    && (m.infra.Some? ==> m.infra.value == InfraObject(Some(w.template.name), Some(w.template.groupKind)))
  }

  function Clone(w: Wanted): (m: Description)
    ensures ClonedFrom(w, m)
  {
    Description(Some(w.version), true, Some(w.config), Some(InfraObject(Some(w.template.name), Some(w.template.groupKind))))
  }

  /** It matches: a rollout never replaces the machines it makes. */
  lemma CloneMatches(w: Wanted, m: Description)
    requires ClonedFrom(w, m)
    ensures MatchesConfiguration(w, m)
  {
  }

  /** What does not match: no version, another one apart from one leading v each; a fetched config that
      differs in more than its version; a fetched infrastructure object made from another template. */
  lemma MismatchInPlainTerms(w: Wanted, m: Description)
    ensures !MatchesConfiguration(w, m) <==>
      || m.version.None?
      || (var v := m.version.value;
          (if v != "" && v[0] == 'v' then v[1..] else v) != (if w.version != "" && w.version[0] == 'v' then w.version[1..] else w.version))
      || (m.hasConfigRef && m.config.Some? && m.config.value.rest != w.config.rest)
      || (m.infra.Some? && m.infra.value.clonedFromName.Some? && m.infra.value.clonedFromGroupKind.Some?
          && (m.infra.value.clonedFromName.value != w.template.name || m.infra.value.clonedFromGroupKind.value != w.template.groupKind))
  {
  }
}
