/** The `/profile` endpoint: which deployment profile the running instance
    reports, chosen from its active profiles. */
module Profile {
  import opened Wrappers

  /** The profiles used for deployment. */
  const RealProfiles: seq<string> := ["real", "real1", "real2"]

  /** Membership is exact string equality. */
  predicate IsReal(p: string)
  {
    p in RealProfiles
  }

  /** `filter(realProfiles::contains).findAny()`: some active real profile
      if there is one. Which one is not promised, so the contract names none;
      this definition happens to take the first. */
  function FindAnyReal(profiles: seq<string>): (r: Option<string>)
    ensures r.Some? ==> r.value in profiles && IsReal(r.value)
    ensures r.None? ==> forall i | 0 <= i < |profiles| :: !IsReal(profiles[i])
  {
    if profiles == [] then None
    else if IsReal(profiles[0]) then Some(profiles[0])
    else FindAnyReal(profiles[1..])
  }

  /** The reported profile: an active real profile if any is active,
      otherwise the first active profile, otherwise "default". */
  function Profile(profiles: seq<string>): (r: string)
    ensures (exists i | 0 <= i < |profiles| :: IsReal(profiles[i])) ==> r in profiles && IsReal(r)
    ensures (forall i | 0 <= i < |profiles| :: !IsReal(profiles[i])) && profiles != [] ==> r == profiles[0]
    ensures profiles == [] ==> r == "default"
    ensures r in profiles || r == "default"
  {
    var defaultProfile := if profiles == [] then "default" else profiles[0];
    match FindAnyReal(profiles)
    case Some(p) => p
    case None => defaultProfile
  }

  /** A profile that only starts like a real one is not real: with "oauth"
      and "real-db" active, the first active profile is reported. */
  lemma PrefixIsNotReal()
    ensures !IsReal("real-db")
    ensures Profile(["oauth", "real-db"]) == "oauth"
  {
    assert !IsReal("oauth");
  }
}
