/**
 * HealthKit's `HKWorkoutActivityType`, seen from the catalogue. It is an open
 * enumeration: HealthKit knows activity kinds the catalogue never mentions and
 * adds new ones in later releases, which is why the catalogue's reverse switch
 * ends in `@unknown default`. A value is modelled as a code. The 73 cases the
 * catalogue names are the constants below, numbered in code-point order of
 * their names; the numbers are stand-ins, not HealthKit's raw values. Every
 * other code is a HealthKit case the catalogue does not name, today's or a
 * future one.
 */
module HealthKit {

  newtype HKWorkoutActivityType = i: int | 0 <= i

  const AmericanFootball: HKWorkoutActivityType              := 0
  const Archery: HKWorkoutActivityType                       := 1
  const AustralianFootball: HKWorkoutActivityType            := 2
  const Badminton: HKWorkoutActivityType                     := 3
  const Barre: HKWorkoutActivityType                         := 4
  const Baseball: HKWorkoutActivityType                      := 5
  const Basketball: HKWorkoutActivityType                    := 6
  const Bowling: HKWorkoutActivityType                       := 7
  const Boxing: HKWorkoutActivityType                        := 8
  const Climbing: HKWorkoutActivityType                      := 9
  const CoreTraining: HKWorkoutActivityType                  := 10
  const CrossCountrySkiing: HKWorkoutActivityType            := 11
  const CrossTraining: HKWorkoutActivityType                 := 12
  const Curling: HKWorkoutActivityType                       := 13
  const Cycling: HKWorkoutActivityType                       := 14
  const DiscSports: HKWorkoutActivityType                    := 15
  const DownhillSkiing: HKWorkoutActivityType                := 16
  const Elliptical: HKWorkoutActivityType                    := 17
  const EquestrianSports: HKWorkoutActivityType              := 18
  const Fencing: HKWorkoutActivityType                       := 19
  const Fishing: HKWorkoutActivityType                       := 20
  const FitnessGaming: HKWorkoutActivityType                 := 21
  const Flexibility: HKWorkoutActivityType                   := 22
  const FunctionalStrengthTraining: HKWorkoutActivityType    := 23
  const Golf: HKWorkoutActivityType                          := 24
  const Gymnastics: HKWorkoutActivityType                    := 25
  const HandCycling: HKWorkoutActivityType                   := 26
  const Handball: HKWorkoutActivityType                      := 27
  const HighIntensityIntervalTraining: HKWorkoutActivityType := 28
  const Hiking: HKWorkoutActivityType                        := 29
  const Hockey: HKWorkoutActivityType                        := 30
  const Hunting: HKWorkoutActivityType                       := 31
  const JumpRope: HKWorkoutActivityType                      := 32
  const Kickboxing: HKWorkoutActivityType                    := 33
  const Lacrosse: HKWorkoutActivityType                      := 34
  const MartialArts: HKWorkoutActivityType                   := 35
  const MindAndBody: HKWorkoutActivityType                   := 36
  const MixedCardio: HKWorkoutActivityType                   := 37
  const Other: HKWorkoutActivityType                         := 38
  const PaddleSports: HKWorkoutActivityType                  := 39
  const Pilates: HKWorkoutActivityType                       := 40
  const Play: HKWorkoutActivityType                          := 41
  const PreparationAndRecovery: HKWorkoutActivityType        := 42
  const Racquetball: HKWorkoutActivityType                   := 43
  const Rowing: HKWorkoutActivityType                        := 44
  const Rugby: HKWorkoutActivityType                         := 45
  const Running: HKWorkoutActivityType                       := 46
  const Sailing: HKWorkoutActivityType                       := 47
  const SkatingSports: HKWorkoutActivityType                 := 48
  const SnowSports: HKWorkoutActivityType                    := 49
  const Snowboarding: HKWorkoutActivityType                  := 50
  const Soccer: HKWorkoutActivityType                        := 51
  const Softball: HKWorkoutActivityType                      := 52
  const Squash: HKWorkoutActivityType                        := 53
  const StairClimbing: HKWorkoutActivityType                 := 54
  const Stairs: HKWorkoutActivityType                        := 55
  const StepTraining: HKWorkoutActivityType                  := 56
  const SurfingSports: HKWorkoutActivityType                 := 57
  const Swimming: HKWorkoutActivityType                      := 58
  const TableTennis: HKWorkoutActivityType                   := 59
  const TaiChi: HKWorkoutActivityType                        := 60
  const Tennis: HKWorkoutActivityType                        := 61
  const TrackAndField: HKWorkoutActivityType                 := 62
  const TraditionalStrengthTraining: HKWorkoutActivityType   := 63
  const Volleyball: HKWorkoutActivityType                    := 64
  const Walking: HKWorkoutActivityType                       := 65
  const WaterFitness: HKWorkoutActivityType                  := 66
  const WaterPolo: HKWorkoutActivityType                     := 67
  const WaterSports: HKWorkoutActivityType                   := 68
  const WheelchairRunPace: HKWorkoutActivityType             := 69
  const WheelchairWalkPace: HKWorkoutActivityType            := 70
  const Wrestling: HKWorkoutActivityType                     := 71
  const Yoga: HKWorkoutActivityType                          := 72

  /** How many codes the catalogue names. */
  const NamedCount: HKWorkoutActivityType := 73

  /** A HealthKit case the catalogue names, as opposed to one only HealthKit knows. */
  predicate IsNamed(h: HKWorkoutActivityType) {
    h < NamedCount
  }
}
