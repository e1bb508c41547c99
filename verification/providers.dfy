/** The closed set of target UI libraries ("providers") a generator switches
    on, the size tiers, and the comments returned when a generator has no
    branch for the requested provider. */
module Providers {
  import opened Js

  /** The five provider tags a generator's `switch (provider)` recognises;
      every other string falls to the `default` branch. */
  datatype Provider = Mui | Chakra | Antd | Shadcn | Aceternity | Other

  /** The `case` a provider string selects (exact string comparison). */
  function ProviderOf(tag: string): (p: Provider)
    ensures p == Other <==> tag !in ["mui", "chakra", "antd", "shadcn", "aceternity"]
  {
    if tag == "mui" then Mui
    else if tag == "chakra" then Chakra
    else if tag == "antd" then Antd
    else if tag == "shadcn" then Shadcn
    else if tag == "aceternity" then Aceternity
    else Other
  }

  /** The tag of a known provider. */
  function Tag(p: Provider): string
    requires p != Other
  {
    match p
    case Mui => "mui"
    case Chakra => "chakra"
    case Antd => "antd"
    case Shadcn => "shadcn"
    case Aceternity => "aceternity"
  }

  /** Each known provider is selected by exactly its own tag. */
  lemma TagRoundTrip(p: Provider)
    requires p != Other
    ensures ProviderOf(Tag(p)) == p
  {
  }

  /** The size tier a `size` value selects: every ternary chain in the
      generators tests `size === 'small'` and `size === 'large'` and treats
      everything else (unset included) as the middle tier. */
  datatype Tier = Small | Medium | Large

  function TierOf(size: Value): (t: Tier)
    ensures t == Small <==> size == Str("small")
    ensures t == Large <==> size == Str("large")
  {
    if size == Str("small") then Small else if size == Str("large") then Large else Medium
  }

  /** `t === 'small' ? a : t === 'large' ? b : c` */
  function BySize<T>(t: Tier, small: T, large: T, otherwise: T): T {
    match t
    case Small => small
    case Large => large
    case Medium => otherwise
  }

  // The comments returned by the `default` branches.
  const CodeNotAvailable := "// Provider code not available"
  const GenerationNotAvailable := "// Code generation not available for this provider"
  const GeneratedNotAvailable := "// Generated code not available for this provider"
  const NotSupported := "// Provider not supported"
}
