/** The benchmark's fixed vocabulary: families, profiles, stacks, and where each execution belongs. */
module Workloads {
  import opened Common

  datatype Family = Baseline | LinearPeak | Race
  datatype Profile = Linear | Flat | Sine | Fixed100 | Expandable1000 | Vus10 | Vus100 | Vus1000
  datatype Stack = Dotnet | Java | Go | Rust

  /** A validated run id <stamp>-blog_tls_<family>-<suffix>, already parsed. */
  datatype RunId = RunId(stamp: string, family: Family, suffix: string)

  const STACK_ORDER := [Dotnet, Java, Go, Rust]
  const FAMILIES := [Baseline, LinearPeak, Race]

  function StackPrefix(stack: Stack): string {
    match stack
    case Dotnet => "net"
    case Java => "java"
    case Go => "go"
    case Rust => "rust"
  }

  lemma EveryStackIsOrdered(stack: Stack)
    ensures stack in STACK_ORDER
  {
    match stack
    case Dotnet => assert STACK_ORDER[0] == stack;
    case Java => assert STACK_ORDER[1] == stack;
    case Go => assert STACK_ORDER[2] == stack;
    case Rust => assert STACK_ORDER[3] == stack;
  }

  lemma EveryFamilyIsOrdered(family: Family)
    ensures family in FAMILIES
  {
    match family
    case Baseline => assert FAMILIES[0] == family;
    case LinearPeak => assert FAMILIES[1] == family;
    case Race => assert FAMILIES[2] == family;
  }

  predicate EndsWith(s: string, suffix: string) {
    |suffix| <= |s| && s[|s| - |suffix|..] == suffix
  }

  function RemoveSuffix(s: string, suffix: string): string {
    if EndsWith(s, suffix) then s[..|s| - |suffix|] else s
  }

  /** The stack whose prefix the tag starts with; the four prefixes differ in their first letter. */
  function StackIdentity(tag: string): Option<Stack> {
    if StartsWith(tag, "net") then Some(Dotnet)
    else if StartsWith(tag, "java") then Some(Java)
    else if StartsWith(tag, "go") then Some(Go)
    else if StartsWith(tag, "rust") then Some(Rust)
    else None
  }

  lemma OneStackPerTag(tag: string, stack: Stack)
    ensures StartsWith(tag, StackPrefix(stack)) <==> StackIdentity(tag) == Some(stack)
  {
    assert StartsWith(tag, StackPrefix(stack)) ==> tag[0] == StackPrefix(stack)[0];
    assert StartsWith(tag, "net") ==> tag[0] == 'n';
    assert StartsWith(tag, "java") ==> tag[0] == 'j';
    assert StartsWith(tag, "go") ==> tag[0] == 'g';
    assert StartsWith(tag, "rust") ==> tag[0] == 'r';
  }

  function Profiles(family: Family): (ps: seq<Profile>)
    ensures 2 <= |ps| <= 3
  {
    match family
    case Baseline => [Linear, Flat, Sine]
    case LinearPeak => [Fixed100, Expandable1000]
    case Race => [Vus10, Vus100, Vus1000]
  }

  function FamilyOf(profile: Profile): Family {
    match profile
    case Linear => Baseline
    case Flat => Baseline
    case Sine => Baseline
    case Fixed100 => LinearPeak
    case Expandable1000 => LinearPeak
    case _ => Race
  }

  /** The executions of a run cycle through the family's profiles three times. */
  function ProfileTag(family: Family, index: int): string {
    match family
    case Baseline => if index % 3 == 1 then "linear" else if index % 3 == 2 then "flat" else "sine"
    case LinearPeak => "linear"
    case Race => "race"
  }

  function ExpectedExecutions(family: Family): set<(string, int)> {
    set i | 1 <= i <= 3 * |Profiles(family)| :: (ProfileTag(family, i), i)
  }

  lemma FirstExecution(family: Family)
    ensures (ProfileTag(family, 1), 1) in ExpectedExecutions(family)
  {
  }

  /** profile_slot: the profile and repeat of an execution, if the family has it. */
  function ProfileSlot(family: Family, tag: string, index: int): Option<(Profile, nat)> {
    if (tag, index) !in ExpectedExecutions(family) then None else
    var n := |Profiles(family)|;
    Some((Profiles(family)[(index - 1) % n], (index - 1) / n))
  }

  function IndexOf(profile: Profile, repeat: nat): int {
    match profile
    case Linear => 3 * repeat + 1
    case Flat => 3 * repeat + 2
    case Sine => 3 * repeat + 3
    case Fixed100 => 2 * repeat + 1
    case Expandable1000 => 2 * repeat + 2
    case Vus10 => 3 * repeat + 1
    case Vus100 => 3 * repeat + 2
    case Vus1000 => 3 * repeat + 3
  }

  /** Slots and executions of a family correspond one to one: every profile has repeats 0, 1 and 2. */
  lemma SlotsAreExecutions(family: Family, tag: string, index: int, profile: Profile, repeat: nat)
    ensures ProfileSlot(family, tag, index) == Some((profile, repeat)) <==>
            FamilyOf(profile) == family && repeat < 3 && index == IndexOf(profile, repeat) &&
                tag == ProfileTag(family, index)
  {
    if FamilyOf(profile) == family && repeat < 3 && index == IndexOf(profile, repeat) &&
        tag == ProfileTag(family, index) {
      assert 1 <= index <= 3 * |Profiles(family)|;
      assert (tag, index) in ExpectedExecutions(family);
    }
  }

  /** The benchmark's plan: which execution of which family runs which profile for which time. */
  predicate Plays(family: Family, tag: string, index: int, profile: Profile, repeat: nat) {
    match profile
    case Linear => family == Baseline && (tag, index, repeat) in {("linear", 1, 0), ("linear", 4, 1), ("linear", 7, 2)}
    case Flat => family == Baseline && (tag, index, repeat) in {("flat", 2, 0), ("flat", 5, 1), ("flat", 8, 2)}
    case Sine => family == Baseline && (tag, index, repeat) in {("sine", 3, 0), ("sine", 6, 1), ("sine", 9, 2)}
    case Fixed100 =>
      family == LinearPeak && (tag, index, repeat) in {("linear", 1, 0), ("linear", 3, 1), ("linear", 5, 2)}
    case Expandable1000 =>
      family == LinearPeak && (tag, index, repeat) in {("linear", 2, 0), ("linear", 4, 1), ("linear", 6, 2)}
    case Vus10 => family == Race && (tag, index, repeat) in {("race", 1, 0), ("race", 4, 1), ("race", 7, 2)}
    case Vus100 => family == Race && (tag, index, repeat) in {("race", 2, 0), ("race", 5, 1), ("race", 8, 2)}
    case Vus1000 => family == Race && (tag, index, repeat) in {("race", 3, 0), ("race", 6, 1), ("race", 9, 2)}
  }

  lemma SlotsArePlayed(family: Family, tag: string, index: int, profile: Profile, repeat: nat)
    ensures ProfileSlot(family, tag, index) == Some((profile, repeat)) <==> Plays(family, tag, index, profile, repeat)
  {
    SlotsAreExecutions(family, tag, index, profile, repeat);
  }

  /** A run is expected to report exactly the executions of the plan. */
  lemma ExpectedArePlayed(family: Family, tag: string, index: int)
    ensures (tag, index) in ExpectedExecutions(family) <==>
            exists profile, repeat :: Plays(family, tag, index, profile, repeat)
  {
    if (tag, index) in ExpectedExecutions(family) {
      var (profile, repeat) := ProfileSlot(family, tag, index).value;
      SlotsArePlayed(family, tag, index, profile, repeat);
    }
    if profile, repeat :| Plays(family, tag, index, profile, repeat) {
      SlotsArePlayed(family, tag, index, profile, repeat);
    }
  }

  /** FAMILIES.index and PROFILE_SLUGS.index as one number. */
  function Rank(profile: Profile): nat {
    match profile
    case Linear => 0
    case Flat => 1
    case Sine => 2
    case Fixed100 => 3
    case Expandable1000 => 4
    case Vus10 => 5
    case Vus100 => 6
    case Vus1000 => 7
  }

  function FamilyText(family: Family): string {
    match family
    case Baseline => "baseline"
    case LinearPeak => "linear"
    case Race => "race"
  }

  function Slug(profile: Profile): string {
    match profile
    case Linear => "linear"
    case Flat => "flat"
    case Sine => "sine"
    case Fixed100 => "fixed-100-vus"
    case Expandable1000 => "expandable-1000-vus"
    case Vus10 => "10-vus"
    case Vus100 => "100-vus"
    case Vus1000 => "1000-vus"
  }
}
