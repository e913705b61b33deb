/** The decision rules of the OpenShift platform configuration: whether the OpenShift
    (S2I) image build is enabled, which deployment resource kind is generated, and which
    sidecar containers are configured. */
module OpenShift {
  import opened Outcomes
  import opened Text

  /** The builder and capability markers of the OpenShift build. */
  const OpenShiftName := "openshift"
  const S2IName := "s2i"

  datatype OpenshiftFlavor = V3 | V4

  /** The documented values of the deployment kind setting. */
  datatype DeploymentResourceKind = Deployment | StatefulSet | Job | CronJob | DeploymentConfig

  /** The exceptions the rules can raise. */
  datatype ConfigError =
    | KindUnavailable(kind: DeploymentResourceKind)  // `Optional.get` on the filtered explicit kind
    | ContainersConflict                             // the conflict exception of `getSidecars`

  // ---------------------------------------------------------------------
  // isOpenshiftBuildEnabled

  /** The build is enabled by an explicit `openshift` or `s2i` builder or, with no builder
      configured, by an active container-image capability naming either. */
  function IsOpenshiftBuildEnabled(builder: Option<string>, activeCapability: Option<string>): bool {
    var implicitlyEnabled :=
      activeCapability.Some? && (Contains(activeCapability.value, OpenShiftName) || Contains(activeCapability.value, S2IName));
    match builder
    case Some(b) => b == OpenShiftName || b == S2IName
    case None => implicitlyEnabled
  }

  /** An explicit builder decides on its own: the capabilities are not consulted. */
  lemma ExplicitBuilderDecides(b: string, capability1: Option<string>, capability2: Option<string>)
    ensures IsOpenshiftBuildEnabled(Some(b), capability1) == IsOpenshiftBuildEnabled(Some(b), capability2)
    ensures IsOpenshiftBuildEnabled(Some(b), capability1) <==> b == "openshift" || b == "s2i"
  {
  }

  /** With no builder, the build is enabled exactly when the active capability's name has
      `openshift` or `s2i` somewhere in it. */
  lemma ImplicitBuild(activeCapability: Option<string>)
    ensures IsOpenshiftBuildEnabled(None, activeCapability)
        <==> exists c, i | activeCapability == Some(c) && 0 <= i <= |c| :: OccursAt(c, "openshift", i) || OccursAt(c, "s2i", i)
  {
  }

  /** Any other explicit builder disables the build even when an OpenShift capability is active. */
  lemma OtherBuilderWins(b: string, activeCapability: Option<string>)
    requires b != "openshift" && b != "s2i"
    ensures !IsOpenshiftBuildEnabled(Some(b), activeCapability)
  {
  }

  /** Example: the OpenShift container-image capability enables the build when no builder is set. */
  lemma OpenShiftCapabilityEnables()
    ensures IsOpenshiftBuildEnabled(None, Some("io.quarkus.container.image.openshift"))
  {
    assert OccursAt("io.quarkus.container.image.openshift", OpenShiftName, 27);
  }

  // ---------------------------------------------------------------------
  // getDeploymentResourceKind

  /** The deployment kind: the explicit setting if OpenShift supports it (failing otherwise),
      else `Job` for a command-line application, else by flavor. */
  function GetDeploymentResourceKind(
    deploymentKind: Option<DeploymentResourceKind>, availableOnOpenShift: set<DeploymentResourceKind>,
    picocliPresent: bool, flavor: OpenshiftFlavor): Result<DeploymentResourceKind, ConfigError>
  {
    match deploymentKind
    case Some(k) => if k in availableOnOpenShift then Ok(k) else Err(KindUnavailable(k))
    case None =>
      if picocliPresent then Ok(Job)
      else if flavor == V3 then Ok(DeploymentConfig)
      else Ok(Deployment)
  }

  /** An explicit kind wins over the command-line and flavor defaults, and an unsupported one
      is an error rather than a reason to fall back to them. */
  lemma ExplicitKindWins(
    k: DeploymentResourceKind, availableOnOpenShift: set<DeploymentResourceKind>,
    picocliPresent: bool, flavor: OpenshiftFlavor)
    ensures var r := GetDeploymentResourceKind(Some(k), availableOnOpenShift, picocliPresent, flavor);
      && (k in availableOnOpenShift ==> r == Ok(k))
      && (k !in availableOnOpenShift ==> r == Err(KindUnavailable(k)))
  {
  }

  /** Without an explicit kind the rule never fails: `Job` whenever picocli is present, and
      otherwise `DeploymentConfig` exactly on v3. */
  lemma DefaultKind(availableOnOpenShift: set<DeploymentResourceKind>, picocliPresent: bool, flavor: OpenshiftFlavor)
    ensures var r := GetDeploymentResourceKind(None, availableOnOpenShift, picocliPresent, flavor);
      && r.Ok?
      && (picocliPresent ==> r.value == Job)
      && (!picocliPresent ==> (r.value == DeploymentConfig <==> flavor == V3))
      && (!picocliPresent ==> (r.value == Deployment <==> flavor == V4))
  {
  }

  /** A kind is only ever produced if the setting asked for it and OpenShift supports it, or
      if it is one of the three defaults. */
  lemma KindProvenance(
    deploymentKind: Option<DeploymentResourceKind>, availableOnOpenShift: set<DeploymentResourceKind>,
    picocliPresent: bool, flavor: OpenshiftFlavor)
    ensures var r := GetDeploymentResourceKind(deploymentKind, availableOnOpenShift, picocliPresent, flavor);
      && (r.Err? <==> deploymentKind.Some? && deploymentKind.value !in availableOnOpenShift)
      && (r.Ok? ==>
          (deploymentKind == Some(r.value) && r.value in availableOnOpenShift)
          || (deploymentKind.None? && r.value in {Job, DeploymentConfig, Deployment}))
  {
  }

  // ---------------------------------------------------------------------
  // getSidecars

  /** `getSidecars` as written: the conflict test looks at the main container's name, not at
      the deprecated `containers` map. */
  function GetSidecars<C>(containerName: Option<string>, containers: map<string, C>, sidecars: map<string, C>)
    : Result<map<string, C>, ConfigError>
  {
    if containerName.Some? && sidecars != map[] then Err(ContainersConflict)
    else if containers != map[] then Ok(containers)
    else Ok(sidecars)
  }

  /** What the written rule does: it fails exactly when a container name and sidecars are
      both set, and otherwise a non-empty deprecated map shadows the new one entirely. */
  lemma GetSidecarsBehaviour<C>(containerName: Option<string>, containers: map<string, C>, sidecars: map<string, C>)
    ensures var r := GetSidecars(containerName, containers, sidecars);
      && (r.Err? <==> containerName.Some? && sidecars != map[])
      && (r.Ok? && containers != map[] ==> r.value == containers)
      && (r.Ok? && containers == map[] ==> r.value == sidecars)
  {
  }

  /** A container name with new-style sidecars, and no deprecated map at all, is rejected. */
  lemma GetSidecarsRejectsContainerName()
    ensures GetSidecars(Some("app"), map[], map["log" := 1]) == Err(ContainersConflict)
    ensures GetSidecarsIntended(map[], map["log" := 1]) == Ok(map["log" := 1])
  {
    assert "log" in map["log" := 1];
  }

  /** Both maps set, with no container name, pass the test and the new sidecars are dropped. */
  lemma GetSidecarsDropsSidecars()
    ensures GetSidecars(None, map["old" := 1], map["log" := 2]) == Ok(map["old" := 1])
    ensures "log" !in GetSidecars(None, map["old" := 1], map["log" := 2]).value
    ensures GetSidecarsIntended(map["old" := 1], map["log" := 2]) == Err(ContainersConflict)
  {
    assert "old" in map["old" := 1];
    assert "log" in map["log" := 2];
  }

  /** The rule the error message describes: the deprecated and new settings cannot be used together. */
  function GetSidecarsIntended<C>(containers: map<string, C>, sidecars: map<string, C>)
    : Result<map<string, C>, ConfigError>
  {
    if containers != map[] && sidecars != map[] then Err(ContainersConflict)
    else if containers != map[] then Ok(containers)
    else Ok(sidecars)
  }

  /** The corrected rule fails exactly on the conflict, and otherwise loses no configured
      container: every entry of either map is in the result, with its configuration, and
      nothing else is. */
  lemma SidecarsIntendedKeepsAll<C>(containers: map<string, C>, sidecars: map<string, C>)
    ensures var r := GetSidecarsIntended(containers, sidecars);
      && (r.Err? <==> containers != map[] && sidecars != map[])
      && (r.Ok? ==>
        && (forall n | n in containers :: n in r.value && r.value[n] == containers[n])
        && (forall n | n in sidecars :: n in r.value && r.value[n] == sidecars[n])
        && (forall n | n in r.value :: n in containers || n in sidecars))
  {
  }

  /** The two rules agree whenever no container name is set and at most one of the maps is. */
  lemma SidecarsRulesAgree<C>(containers: map<string, C>, sidecars: map<string, C>)
    requires containers == map[] || sidecars == map[]
    ensures GetSidecars(None, containers, sidecars) == GetSidecarsIntended(containers, sidecars)
  {
  }
}
