/**
 * The catalogue of user-selectable workout activities: the enumeration
 * `WorkoutActivityType`, its case list, and its four lookup tables (display
 * name, SF Symbols icon name, HealthKit type, and the way back from a HealthKit
 * type). Every member is a pure table; the lemmas after the tables state what
 * the tables promise.
 */
module WorkoutActivity {

  import HK = HealthKit
  import opened Strings

  datatype Option<T> = None | Some(value: T)

  /**
   * One workout activity kind. The enumeration carries no payloads, so a kind
   * is modelled by its position in the declaration, counting from 0; the
   * constants below are the 73 cases, in declaration order.
   */
  newtype WorkoutActivityType = i: int | 0 <= i < 73

  const AmericanFootball: WorkoutActivityType              := 0
  const Archery: WorkoutActivityType                       := 1
  const AustralianFootball: WorkoutActivityType            := 2
  const Badminton: WorkoutActivityType                     := 3
  const Baseball: WorkoutActivityType                      := 4
  const Basketball: WorkoutActivityType                    := 5
  const Bowling: WorkoutActivityType                       := 6
  const Boxing: WorkoutActivityType                        := 7
  const Climbing: WorkoutActivityType                      := 8
  const CrossTraining: WorkoutActivityType                 := 9
  const Curling: WorkoutActivityType                       := 10
  const Cycling: WorkoutActivityType                       := 11
  const Elliptical: WorkoutActivityType                    := 12
  const EquestrianSports: WorkoutActivityType              := 13
  const Fencing: WorkoutActivityType                       := 14
  const Fishing: WorkoutActivityType                       := 15
  const FunctionalStrengthTraining: WorkoutActivityType    := 16
  const Golf: WorkoutActivityType                          := 17
  const Gymnastics: WorkoutActivityType                    := 18
  const Handball: WorkoutActivityType                      := 19
  const Hiking: WorkoutActivityType                        := 20
  const Hockey: WorkoutActivityType                        := 21
  const Hunting: WorkoutActivityType                       := 22
  const Lacrosse: WorkoutActivityType                      := 23
  const MartialArts: WorkoutActivityType                   := 24
  const MindAndBody: WorkoutActivityType                   := 25
  const PaddleSports: WorkoutActivityType                  := 26
  const Play: WorkoutActivityType                          := 27
  const PreparationAndRecovery: WorkoutActivityType        := 28
  const Racquetball: WorkoutActivityType                   := 29
  const Rowing: WorkoutActivityType                        := 30
  const Rugby: WorkoutActivityType                         := 31
  const Running: WorkoutActivityType                       := 32
  const Sailing: WorkoutActivityType                       := 33
  const SkatingSports: WorkoutActivityType                 := 34
  const SnowSports: WorkoutActivityType                    := 35
  const Soccer: WorkoutActivityType                        := 36
  const Softball: WorkoutActivityType                      := 37
  const Squash: WorkoutActivityType                        := 38
  const StairClimbing: WorkoutActivityType                 := 39
  const SurfingSports: WorkoutActivityType                 := 40
  const Swimming: WorkoutActivityType                      := 41
  const TableTennis: WorkoutActivityType                   := 42
  const Tennis: WorkoutActivityType                        := 43
  const TrackAndField: WorkoutActivityType                 := 44
  const TraditionalStrengthTraining: WorkoutActivityType   := 45
  const Volleyball: WorkoutActivityType                    := 46
  const Walking: WorkoutActivityType                       := 47
  const WaterFitness: WorkoutActivityType                  := 48
  const WaterPolo: WorkoutActivityType                     := 49
  const WaterSports: WorkoutActivityType                   := 50
  const Wrestling: WorkoutActivityType                     := 51
  const Yoga: WorkoutActivityType                          := 52
  const Barre: WorkoutActivityType                         := 53
  const CoreTraining: WorkoutActivityType                  := 54
  const CrossCountrySkiing: WorkoutActivityType            := 55
  const DownhillSkiing: WorkoutActivityType                := 56
  const Flexibility: WorkoutActivityType                   := 57
  const HighIntensityIntervalTraining: WorkoutActivityType := 58
  const JumpRope: WorkoutActivityType                      := 59
  const Kickboxing: WorkoutActivityType                    := 60
  const Pilates: WorkoutActivityType                       := 61
  const Snowboarding: WorkoutActivityType                  := 62
  const Stairs: WorkoutActivityType                        := 63
  const StepTraining: WorkoutActivityType                  := 64
  const WheelchairWalkPace: WorkoutActivityType            := 65
  const WheelchairRunPace: WorkoutActivityType             := 66
  const TaiChi: WorkoutActivityType                        := 67
  const MixedCardio: WorkoutActivityType                   := 68
  const HandCycling: WorkoutActivityType                   := 69
  const DiscSports: WorkoutActivityType                    := 70
  const FitnessGaming: WorkoutActivityType                 := 71
  const Other: WorkoutActivityType                         := 72

  /** The number of kinds. */
  const CaseCount: nat := 73

  /** `allCases` from `CaseIterable`: every kind, in declaration order. */
  const AllCases: seq<WorkoutActivityType> := seq(CaseCount, i requires 0 <= i < CaseCount => i as WorkoutActivityType)

  /** `name`: the hand-written display label of every kind; there is no default branch. */
  function Name(k: WorkoutActivityType): (r: string)
    ensures |r| > 0
  {
    match k
    case AmericanFootball                   => "American Football"
    case Archery                            => "Archery"
    case AustralianFootball                 => "Australian Football"
    case Badminton                          => "Badminton"
    case Baseball                           => "Baseball"
    case Basketball                         => "Basketball"
    case Bowling                            => "Bowling"
    case Boxing                             => "Boxing"
    case Climbing                           => "Climbing"
    case CrossTraining                      => "Cross Training"
    case Curling                            => "Curling"
    case Cycling                            => "Cycling"
    case Elliptical                         => "Elliptical"
    case EquestrianSports                   => "Equestrian Sports"
    case Fencing                            => "Fencing"
    case Fishing                            => "Fishing"
    case FunctionalStrengthTraining         => "Functional Strength Training"
    case Golf                               => "Golf"
    case Gymnastics                         => "Gymnastics"
    case Handball                           => "Handball"
    case Hiking                             => "Hiking"
    case Hockey                             => "Hockey"
    case Hunting                            => "Hunting"
    case Lacrosse                           => "Lacrosse"
    case MartialArts                        => "Martial Arts"
    case MindAndBody                        => "Mind and Body"
    case PaddleSports                       => "Paddle Sports"
    case Play                               => "Play"
    case PreparationAndRecovery             => "Preparation and Recovery"
    case Racquetball                        => "Racquetball"
    case Rowing                             => "Rowing"
    case Rugby                              => "Rugby"
    case Running                            => "Running"
    case Sailing                            => "Sailing"
    case SkatingSports                      => "Skating Sports"
    case SnowSports                         => "Snow Sports"
    case Soccer                             => "Soccer"
    case Softball                           => "Softball"
    case Squash                             => "Squash"
    case StairClimbing                      => "Stair Climbing"
    case SurfingSports                      => "Surfing Sports"
    case Swimming                           => "Swimming"
    case TableTennis                        => "Table Tennis"
    case Tennis                             => "Tennis"
    case TrackAndField                      => "Track and Field"
    case TraditionalStrengthTraining        => "Traditional Strength Training"
    case Volleyball                         => "Volleyball"
    case Walking                            => "Walking"
    case WaterFitness                       => "Water Fitness"
    case WaterPolo                          => "Water Polo"
    case WaterSports                        => "Water Sports"
    case Wrestling                          => "Wrestling"
    case Yoga                               => "Yoga"
    case Barre                              => "Barre"
    case CoreTraining                       => "Core Training"
    case CrossCountrySkiing                 => "Cross Country Skiing"
    case DownhillSkiing                     => "Downhill Skiing"
    case Flexibility                        => "Flexibility"
    case HighIntensityIntervalTraining      => "High Intensity Interval Training"
    case JumpRope                           => "Jump Rope"
    case Kickboxing                         => "Kickboxing"
    case Pilates                            => "Pilates"
    case Snowboarding                       => "Snowboarding"
    case Stairs                             => "Stairs"
    case StepTraining                       => "Step Training"
    case WheelchairWalkPace                 => "Wheelchair Walk Pace"
    case WheelchairRunPace                  => "Wheelchair Run Pace"
    case TaiChi                             => "Tai Chi"
    case MixedCardio                        => "Mixed Cardio"
    case HandCycling                        => "Hand Cycling"
    case DiscSports                         => "Disc Sports"
    case FitnessGaming                      => "Fitness Gaming"
    case Other                              => "Other"
  }

  /**
   * The explicit cases of the `icon` switch; `None` means the default branch
   * is taken. Every hand-written symbol name is non-empty.
   */
  function HandWrittenIcon(k: WorkoutActivityType): (r: Option<string>)
    ensures r.Some? ==> |r.value| > 0
  {
    match k
    case FunctionalStrengthTraining         => Some("figure.strengthtraining.functional")
    case TraditionalStrengthTraining        => Some("figure.strengthtraining.traditional")
    case Cycling                            => Some("figure.outdoor.cycle")
    case Running                            => Some("figure.run")
    case TaiChi                             => Some("figure.taichi")
    case WheelchairRunPace                  => Some("figure.roll.runningpace")
    case WheelchairWalkPace                 => Some("figure.roll")
    case Rowing                             => Some("figure.rower")
    case JumpRope                           => Some("figure.jumprope")
    case SkatingSports                      => Some("figure.skating")
    case SnowSports                         => Some("figure.snowboarding")
    case Walking                            => Some("figure.walk")
    case StairClimbing                      => Some("figure.stairs")
    case SurfingSports                      => Some("figure.surfing")
    case Swimming                           => Some("figure.pool.swim")
    case WaterPolo                          => Some("figure.waterpolo")
    case WaterSports                        => Some("figure.water.fitness")
    case CrossCountrySkiing                 => Some("figure.skiing.crosscountry")
    case DownhillSkiing                     => Some("figure.skiing.downhill")
    case PaddleSports                       => Some("figure.tennis")
    case PreparationAndRecovery             => Some("figure.strengthtraining.functional")
    case HighIntensityIntervalTraining      => Some("figure.highintensity.intervaltraining")
    case FitnessGaming                      => Some("gamecontroller.fill")
    case Other                              => Some("figure.stand")
    case _                                  => None
  }

  predicate HasHandWrittenIcon(k: WorkoutActivityType) {
    HandWrittenIcon(k).Some?
  }

  /**
   * The default branch of `icon`: the prefix "figure." followed by the
   * lowercased name in which each space is replaced by a space. That
   * replacement changes nothing, so the result is "figure." and the
   * lowercased name, spaces kept.
   */
  function FallbackIcon(name: string): (r: string)
    ensures r == "figure." + Lower(name)
    ensures |r| == 7 + |name|
  {
    "figure." + Replace(Lower(name), ' ', ' ')
  }

  /**
   * `icon`: the hand-picked SF Symbols name where the switch lists one, and
   * otherwise "figure." followed by the lowercased display name.
   */
  function Icon(k: WorkoutActivityType): (r: string)
    ensures |r| > 0
    ensures HasHandWrittenIcon(k) ==> HandWrittenIcon(k) == Some(r)
    ensures !HasHandWrittenIcon(k) ==> r == "figure." + Lower(Name(k))
  {
    match HandWrittenIcon(k)
    case Some(symbol) => symbol
    case None => FallbackIcon(Name(k))
  }

  /** The HealthKit values the reverse switch lists by hand: every named case but `.other`. */
  predicate ListedInFrom(h: HK.HKWorkoutActivityType) {
    HK.IsNamed(h) && h != HK.Other
  }

  /** `workoutType`: the HealthKit type of each kind. Only `.other` lands outside the reverse table. */
  function WorkoutType(k: WorkoutActivityType): (r: HK.HKWorkoutActivityType)
    ensures HK.IsNamed(r)
    ensures ListedInFrom(r) <==> k != Other
  {
    match k
    case AmericanFootball                   => HK.AmericanFootball
    case Archery                            => HK.Archery
    case AustralianFootball                 => HK.AustralianFootball
    case Badminton                          => HK.Badminton
    case Baseball                           => HK.Baseball
    case Basketball                         => HK.Basketball
    case Bowling                            => HK.Bowling
    case Boxing                             => HK.Boxing
    case Climbing                           => HK.Climbing
    case CrossTraining                      => HK.CrossTraining
    case Curling                            => HK.Curling
    case Cycling                            => HK.Cycling
    case Elliptical                         => HK.Elliptical
    case EquestrianSports                   => HK.EquestrianSports
    case Fencing                            => HK.Fencing
    case Fishing                            => HK.Fishing
    case FunctionalStrengthTraining         => HK.FunctionalStrengthTraining
    case Golf                               => HK.Golf
    case Gymnastics                         => HK.Gymnastics
    case Handball                           => HK.Handball
    case Hiking                             => HK.Hiking
    case Hockey                             => HK.Hockey
    case Hunting                            => HK.Hunting
    case Lacrosse                           => HK.Lacrosse
    case MartialArts                        => HK.MartialArts
    case MindAndBody                        => HK.MindAndBody
    case PaddleSports                       => HK.PaddleSports
    case Play                               => HK.Play
    case PreparationAndRecovery             => HK.PreparationAndRecovery
    case Racquetball                        => HK.Racquetball
    case Rowing                             => HK.Rowing
    case Rugby                              => HK.Rugby
    case Running                            => HK.Running
    case Sailing                            => HK.Sailing
    case SkatingSports                      => HK.SkatingSports
    case SnowSports                         => HK.SnowSports
    case Soccer                             => HK.Soccer
    case Softball                           => HK.Softball
    case Squash                             => HK.Squash
    case StairClimbing                      => HK.StairClimbing
    case SurfingSports                      => HK.SurfingSports
    case Swimming                           => HK.Swimming
    case TableTennis                        => HK.TableTennis
    case Tennis                             => HK.Tennis
    case TrackAndField                      => HK.TrackAndField
    case TraditionalStrengthTraining        => HK.TraditionalStrengthTraining
    case Volleyball                         => HK.Volleyball
    case Walking                            => HK.Walking
    case WaterFitness                       => HK.WaterFitness
    case WaterPolo                          => HK.WaterPolo
    case WaterSports                        => HK.WaterSports
    case Wrestling                          => HK.Wrestling
    case Yoga                               => HK.Yoga
    case Barre                              => HK.Barre
    case CoreTraining                       => HK.CoreTraining
    case CrossCountrySkiing                 => HK.CrossCountrySkiing
    case DownhillSkiing                     => HK.DownhillSkiing
    case Flexibility                        => HK.Flexibility
    case HighIntensityIntervalTraining      => HK.HighIntensityIntervalTraining
    case JumpRope                           => HK.JumpRope
    case Kickboxing                         => HK.Kickboxing
    case Pilates                            => HK.Pilates
    case Snowboarding                       => HK.Snowboarding
    case Stairs                             => HK.Stairs
    case StepTraining                       => HK.StepTraining
    case WheelchairWalkPace                 => HK.WheelchairWalkPace
    case WheelchairRunPace                  => HK.WheelchairRunPace
    case TaiChi                             => HK.TaiChi
    case MixedCardio                        => HK.MixedCardio
    case HandCycling                        => HK.HandCycling
    case DiscSports                         => HK.DiscSports
    case FitnessGaming                      => HK.FitnessGaming
    case Other                              => HK.Other
  }

  /**
   * `from(hkType:)`: the kind a HealthKit type stands for. Every value the
   * switch does not list, HealthKit's own `.other` included, falls to the
   * `@unknown default` branch and gives `Other`; no input fails.
   */
  function From(hkType: HK.HKWorkoutActivityType): (r: WorkoutActivityType)
    ensures r == Other <==> !ListedInFrom(hkType)
  {
    if hkType == HK.AmericanFootball               then AmericanFootball
    else if hkType == HK.Archery                        then Archery
    else if hkType == HK.AustralianFootball             then AustralianFootball
    else if hkType == HK.Badminton                      then Badminton
    else if hkType == HK.Baseball                       then Baseball
    else if hkType == HK.Basketball                     then Basketball
    else if hkType == HK.Bowling                        then Bowling
    else if hkType == HK.Boxing                         then Boxing
    else if hkType == HK.Climbing                       then Climbing
    else if hkType == HK.CrossTraining                  then CrossTraining
    else if hkType == HK.Curling                        then Curling
    else if hkType == HK.Cycling                        then Cycling
    else if hkType == HK.Elliptical                     then Elliptical
    else if hkType == HK.EquestrianSports               then EquestrianSports
    else if hkType == HK.Fencing                        then Fencing
    else if hkType == HK.Fishing                        then Fishing
    else if hkType == HK.FunctionalStrengthTraining     then FunctionalStrengthTraining
    else if hkType == HK.Golf                           then Golf
    else if hkType == HK.Gymnastics                     then Gymnastics
    else if hkType == HK.Handball                       then Handball
    else if hkType == HK.Hiking                         then Hiking
    else if hkType == HK.Hockey                         then Hockey
    else if hkType == HK.Hunting                        then Hunting
    else if hkType == HK.Lacrosse                       then Lacrosse
    else if hkType == HK.MartialArts                    then MartialArts
    else if hkType == HK.MindAndBody                    then MindAndBody
    else if hkType == HK.PaddleSports                   then PaddleSports
    else if hkType == HK.Play                           then Play
    else if hkType == HK.PreparationAndRecovery         then PreparationAndRecovery
    else if hkType == HK.Racquetball                    then Racquetball
    else if hkType == HK.Rowing                         then Rowing
    else if hkType == HK.Rugby                          then Rugby
    else if hkType == HK.Running                        then Running
    else if hkType == HK.Sailing                        then Sailing
    else if hkType == HK.SkatingSports                  then SkatingSports
    else if hkType == HK.SnowSports                     then SnowSports
    else if hkType == HK.Soccer                         then Soccer
    else if hkType == HK.Softball                       then Softball
    else if hkType == HK.Squash                         then Squash
    else if hkType == HK.StairClimbing                  then StairClimbing
    else if hkType == HK.SurfingSports                  then SurfingSports
    else if hkType == HK.Swimming                       then Swimming
    else if hkType == HK.TableTennis                    then TableTennis
    else if hkType == HK.Tennis                         then Tennis
    else if hkType == HK.TrackAndField                  then TrackAndField
    else if hkType == HK.TraditionalStrengthTraining    then TraditionalStrengthTraining
    else if hkType == HK.Volleyball                     then Volleyball
    else if hkType == HK.Walking                        then Walking
    else if hkType == HK.WaterFitness                   then WaterFitness
    else if hkType == HK.WaterPolo                      then WaterPolo
    else if hkType == HK.WaterSports                    then WaterSports
    else if hkType == HK.Wrestling                      then Wrestling
    else if hkType == HK.Yoga                           then Yoga
    else if hkType == HK.Barre                          then Barre
    else if hkType == HK.CoreTraining                   then CoreTraining
    else if hkType == HK.CrossCountrySkiing             then CrossCountrySkiing
    else if hkType == HK.DownhillSkiing                 then DownhillSkiing
    else if hkType == HK.Flexibility                    then Flexibility
    else if hkType == HK.HighIntensityIntervalTraining  then HighIntensityIntervalTraining
    else if hkType == HK.JumpRope                       then JumpRope
    else if hkType == HK.Kickboxing                     then Kickboxing
    else if hkType == HK.Pilates                        then Pilates
    else if hkType == HK.Snowboarding                   then Snowboarding
    else if hkType == HK.Stairs                         then Stairs
    else if hkType == HK.StepTraining                   then StepTraining
    else if hkType == HK.WheelchairWalkPace             then WheelchairWalkPace
    else if hkType == HK.WheelchairRunPace              then WheelchairRunPace
    else if hkType == HK.TaiChi                         then TaiChi
    else if hkType == HK.MixedCardio                    then MixedCardio
    else if hkType == HK.HandCycling                    then HandCycling
    else if hkType == HK.DiscSports                     then DiscSports
    else if hkType == HK.FitnessGaming                  then FitnessGaming
    else Other
  }

  // ----- allCases

  /** `AllCases` has 73 entries and holds each kind exactly once, at its declaration position. */
  lemma AllCasesExactlyOnce()
    ensures |AllCases| == CaseCount
    ensures forall i :: 0 <= i < |AllCases| ==> AllCases[i] as int == i
    ensures forall k :: k in AllCases
    ensures forall i, j :: 0 <= i < j < |AllCases| ==> AllCases[i] != AllCases[j]
  {
    forall k: WorkoutActivityType
      ensures k in AllCases
    {
      assert AllCases[k as int] == k;
    }
  }

  /** Spot checks of the order: the first, the 33rd and the last declared cases. */
  lemma AllCasesEnds()
    ensures AllCases[0] == AmericanFootball
    ensures AllCases[32] == Running
    ensures AllCases[|AllCases| - 1] == Other
  {
  }

  // ----- name

  lemma NameExamples()
    ensures Name(Running) == "Running"
    ensures Name(AmericanFootball) == "American Football"
  {
  }

  // ----- workoutType and from(hkType:)

  /** Mapping a kind to HealthKit and back gives the kind again; for `Other` only through the default branch. */
  lemma RoundTrip(k: WorkoutActivityType)
    ensures From(WorkoutType(k)) == k
  {
  }

  lemma OtherRoundTripsThroughDefault()
    ensures WorkoutType(Other) == HK.Other
    ensures !ListedInFrom(HK.Other) && From(HK.Other) == Other
  {
  }

  /** Distinct kinds have distinct HealthKit types. */
  lemma WorkoutTypeInjective(a: WorkoutActivityType, b: WorkoutActivityType)
    ensures WorkoutType(a) == WorkoutType(b) ==> a == b
  {
    RoundTrip(a);
    RoundTrip(b);
  }

  /** Every HealthKit value the reverse switch lists comes back from the kind it gives. */
  lemma ListedRoundTrip(h: HK.HKWorkoutActivityType)
    requires ListedInFrom(h)
    ensures WorkoutType(From(h)) == h
  {
  }

  /** Every HealthKit case the catalogue names is the HealthKit type of exactly one kind. */
  lemma WorkoutTypeOnto(h: HK.HKWorkoutActivityType)
    requires HK.IsNamed(h)
    ensures exists k :: WorkoutType(k) == h
    ensures forall a, b :: WorkoutType(a) == h && WorkoutType(b) == h ==> a == b
  {
    if h == HK.Other {
      assert WorkoutType(Other) == h;
    } else {
      ListedRoundTrip(h);
    }
    forall a, b | WorkoutType(a) == h && WorkoutType(b) == h
      ensures a == b
    {
      WorkoutTypeInjective(a, b);
    }
  }

  // ----- icon

  /** A fallback icon has no upper-case letter. */
  lemma FallbackIconHasNoUpper(k: WorkoutActivityType)
    requires !HasHandWrittenIcon(k)
    ensures forall i :: 0 <= i < |Icon(k)| ==> !IsUpper(Icon(k)[i])
  {
    LowerHasNoUpper(Name(k));
  }

  /**
   * Among the hand-written icons, only that of `FitnessGaming` is not a
   * "figure." symbol. Each case compares the first seven characters.
   */
  lemma HandWrittenIconPrefix(k: WorkoutActivityType)
    requires HasHandWrittenIcon(k)
    ensures "figure." <= Icon(k) <==> k != FitnessGaming
  {
    match k
    case FunctionalStrengthTraining
       | TraditionalStrengthTraining
       | Cycling
       | Running
       | TaiChi
       | WheelchairRunPace
       | WheelchairWalkPace
       | Rowing
       | JumpRope
       | SkatingSports
       | SnowSports
       | Walking
       | StairClimbing
       | SurfingSports
       | Swimming
       | WaterPolo
       | WaterSports
       | CrossCountrySkiing
       | DownhillSkiing
       | PaddleSports
       | PreparationAndRecovery
       | HighIntensityIntervalTraining
       | Other
      => assert Icon(k)[..7] == "figure.";
    case FitnessGaming => assert Icon(k)[0] == 'g';
    case _ => assert false;
  }

  /** Every icon but that of `FitnessGaming` is a "figure." symbol. */
  lemma IconPrefix(k: WorkoutActivityType)
    ensures "figure." <= Icon(k) <==> k != FitnessGaming
  {
    if HasHandWrittenIcon(k) {
      HandWrittenIconPrefix(k);
    } else {
      assert Icon(k) == FallbackIcon(Name(k));
    }
  }

  lemma IconExamples()
    ensures Icon(Running) == "figure.run"
    ensures Icon(Other) == "figure.stand"
    ensures Icon(FitnessGaming) == "gamecontroller.fill"
  {
  }

  /** `mindAndBody` has no hand-written icon; its fallback keeps the spaces of its name. */
  lemma MindAndBodyFallbackIcon()
    ensures Icon(MindAndBody) == "figure.mind and body"
  {
    assert Name(MindAndBody) == "Mind and Body";
    assert Lower("Mind and Body") == "mind and body";
  }

  /** `softball` has no hand-written icon; its fallback is its lowercased name. */
  lemma SoftballFallbackIcon()
    ensures Icon(Softball) == "figure.softball"
  {
    assert Name(Softball) == "Softball";
    assert Lower("Softball") == "softball";
  }

  /** The two strength-training kinds that share a hand-written symbol. */
  lemma StrengthIconShared()
    ensures Icon(FunctionalStrengthTraining) == Icon(PreparationAndRecovery) == "figure.strengthtraining.functional"
  {
  }

  /** The hand-written icon of `PaddleSports` is the fallback icon of `Tennis`. */
  lemma PaddleSportsIconShared()
    ensures Icon(PaddleSports) == Icon(Tennis) == "figure.tennis"
  {
    assert Name(Tennis) == "Tennis";
    assert Lower("Tennis") == "tennis";
  }

  /** The hand-written icon of `SnowSports` is the fallback icon of `Snowboarding`. */
  lemma SnowSportsIconShared()
    ensures Icon(SnowSports) == Icon(Snowboarding) == "figure.snowboarding"
  {
    assert Name(Snowboarding) == "Snowboarding";
    assert Lower("Snowboarding") == "snowboarding";
  }

  /** `icon` is not injective. */
  lemma IconNotInjective()
    ensures exists a, b :: a != b && Icon(a) == Icon(b)
  {
    PaddleSportsIconShared();
  }
}
