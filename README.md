# WorkoutActivity catalogue in Dafny

A model of `WorkoutActivityType`, the catalogue of user-selectable workout
activities in `Sources/WorkoutActivity/WorkoutActivity.swift`. The catalogue
is a payload-free enumeration of 73 kinds with four lookup tables:

- `name`: the display label;
- `icon`: the SF Symbols name;
- `workoutType`: the HealthKit `HKWorkoutActivityType`;
- `from(hkType:)`: the way back from HealthKit.

It also has the case list that `CaseIterable` provides.

Files:

- `WorkoutActivity.dfy` (module `WorkoutActivity`): the kinds, the four
  tables, `AllCases`, and the lemmas about them.
- `HealthKit.dfy` (module `HealthKit`): HealthKit's activity type, seen from
  the catalogue.
- `Strings.dfy` (module `Strings`): the parts of Swift's `lowercased()` and
  `replacing(_:with:)` that the icon fallback uses, on ASCII text.

Modelling choices:

- **Kinds are numbered, not a datatype.** A kind is its position in the
  declaration, and each case is a named constant. The Swift enumeration has
  no payloads, so a kind carries nothing but its identity. With a numbered
  type, the solver can check the 73-way case analyses cheaply. A datatype
  with 73 constructors makes each of those proofs cost far more.
- **The tables keep the source's form.** They are written as `match`
  expressions over the named constants, in the source's order. `from(hkType:)`
  is an `if` chain over HealthKit's constants, in the source's order, and ends
  in the `@unknown default` branch.
- **HealthKit's type is an open set of codes.** The 73 HealthKit cases the
  catalogue names get the codes 0 to 72, by code-point order of their
  names. These codes are stand-ins, not HealthKit's raw values. Every other
  code stands for a HealthKit case the catalogue does not name: one that
  exists today, or one a future release adds.
- **The icon fallback is modelled as written.** The source builds it as
  `"figure."`, then the lowercased name, with each space replaced by a space.
  That replacement changes nothing, so fallback icons keep their spaces
  (`"figure.mind and body"`). The contracts of `FallbackIcon` and `Icon`
  state exactly that.
- **73 kinds.** The enumeration declares 73 kinds
  (`WorkoutActivity.swift:16`), and the model has 73.

## Model

| member | source | states |
|---|---|---|
| WorkoutActivity.Name | Sources/WorkoutActivity/WorkoutActivity.swift:22-98 | every one of the 73 kinds has a non-empty hand-written display name; no default branch |
| WorkoutActivity.NameExamples | Sources/WorkoutActivity/WorkoutActivity.swift:24-56 | `running` is "Running" and `americanFootball` is "American Football" |
| WorkoutActivity.AllCasesExactlyOnce | Sources/WorkoutActivity/WorkoutActivity.swift:13-16 | `allCases` has 73 entries; position i holds the kind declared i-th; every kind occurs, and no kind occurs twice |
| WorkoutActivity.AllCasesEnds | Sources/WorkoutActivity/WorkoutActivity.swift:15-16 | `allCases` starts with `americanFootball`, has `running` 33rd, and ends with `other` |
| WorkoutActivity.WorkoutType | Sources/WorkoutActivity/WorkoutActivity.swift:150-226 | every kind maps to a HealthKit case the catalogue names; the result is one the reverse switch lists exactly when the kind is not `other` |
| WorkoutActivity.From | Sources/WorkoutActivity/WorkoutActivity.swift:232-309 | total: the result is `other` exactly when the HealthKit value is not among the 72 listed ones, so HealthKit's `.other`, unnamed cases and future cases all give `other` |
| WorkoutActivity.RoundTrip | Sources/WorkoutActivity/WorkoutActivity.swift:150-309 | `from(hkType: k.workoutType) == k` for every kind `k` |
| WorkoutActivity.OtherRoundTripsThroughDefault | Sources/WorkoutActivity/WorkoutActivity.swift:224-307 | `other` maps to HealthKit's `.other`, which the reverse switch does not list, and the default branch brings it back to `other` |
| WorkoutActivity.WorkoutTypeInjective | Sources/WorkoutActivity/WorkoutActivity.swift:150-225 | distinct kinds map to distinct HealthKit types |
| WorkoutActivity.ListedRoundTrip | Sources/WorkoutActivity/WorkoutActivity.swift:150-305 | every HealthKit value the reverse switch lists comes back unchanged through `from` then `workoutType` |
| WorkoutActivity.WorkoutTypeOnto | Sources/WorkoutActivity/WorkoutActivity.swift:150-225 | every HealthKit case the catalogue names is the `workoutType` of exactly one kind |
| WorkoutActivity.HandWrittenIcon | Sources/WorkoutActivity/WorkoutActivity.swift:107-130 | the 24 explicit cases of the `icon` switch, each a non-empty symbol name; every other kind takes the default branch |
| WorkoutActivity.FallbackIcon | Sources/WorkoutActivity/WorkoutActivity.swift:131-132 | the default branch gives "figure." followed by the lowercased name, spaces kept, 7 characters longer than the name |
| WorkoutActivity.Icon | Sources/WorkoutActivity/WorkoutActivity.swift:105-134 | the icon is non-empty; it is the hand-written symbol for the 24 listed kinds, and "figure." followed by the lowercased display name for every other kind |
| WorkoutActivity.FallbackIconHasNoUpper | Sources/WorkoutActivity/WorkoutActivity.swift:132 | a fallback icon contains no upper-case letter |
| WorkoutActivity.HandWrittenIconPrefix | Sources/WorkoutActivity/WorkoutActivity.swift:107-130 | among the 24 hand-written icons, only `fitnessGaming`'s does not start with "figure." |
| WorkoutActivity.IconPrefix | Sources/WorkoutActivity/WorkoutActivity.swift:105-134 | an icon starts with "figure." exactly when the kind is not `fitnessGaming` |
| WorkoutActivity.IconExamples | Sources/WorkoutActivity/WorkoutActivity.swift:110-130 | `running` gives "figure.run", `other` gives "figure.stand", `fitnessGaming` gives "gamecontroller.fill" |
| WorkoutActivity.MindAndBodyFallbackIcon | Sources/WorkoutActivity/WorkoutActivity.swift:131-132 | `mindAndBody` gives "figure.mind and body" |
| WorkoutActivity.SoftballFallbackIcon | Sources/WorkoutActivity/WorkoutActivity.swift:131-132 | `softball` gives "figure.softball" |
| WorkoutActivity.StrengthIconShared | Sources/WorkoutActivity/WorkoutActivity.swift:107-127 | `functionalStrengthTraining` and `preparationAndRecovery` share "figure.strengthtraining.functional" |
| WorkoutActivity.PaddleSportsIconShared | Sources/WorkoutActivity/WorkoutActivity.swift:126-132 | the hand-written icon of `paddleSports` equals the fallback icon of `tennis`, "figure.tennis" |
| WorkoutActivity.SnowSportsIconShared | Sources/WorkoutActivity/WorkoutActivity.swift:117-132 | the hand-written icon of `snowSports` equals the fallback icon of `snowboarding`, "figure.snowboarding" |
| WorkoutActivity.IconNotInjective | Sources/WorkoutActivity/WorkoutActivity.swift:105-134 | two distinct kinds have the same icon |
| Strings.LowerChar | Sources/WorkoutActivity/WorkoutActivity.swift:132 | one character of `lowercased()`: the result is never a capital, a capital becomes its own small letter ('S' to 's'), and any other character is kept |
| Strings.Lower | Sources/WorkoutActivity/WorkoutActivity.swift:132 | `lowercased()` on ASCII keeps the length |
| Strings.LowerHasNoUpper | Sources/WorkoutActivity/WorkoutActivity.swift:132 | `lowercased()` on ASCII leaves no upper-case letter, turns each capital into its own small letter, and keeps every other character, spaces included, in place |
| Strings.Replace | Sources/WorkoutActivity/WorkoutActivity.swift:132 | `replacing(_:with:)` with one-character arguments keeps the length, and replacing a character by itself, as `replacing(" ", with: " ")` does, returns the input unchanged |
| Strings.ReplaceAt | Sources/WorkoutActivity/WorkoutActivity.swift:132 | every occurrence of the pattern becomes the replacement, and every other character stays in place |

## Left out

- HealthKit itself (`import HealthKit`) is not part of this model. Its type is an open set of codes, and the model does not use its raw values or its version history.
- The `@available(iOS 16.0, *)` and `@available(iOS 13.0, *)` gating is left out. It concerns platform availability, not what the tables return.
- The `Codable` conformance is left out. The Swift compiler synthesises its encoder and decoder, and they do not appear in the source.
- `lowercased()` is modelled for ASCII letters only. Its Unicode case mapping is not modelled. Every display name is written in ASCII.
- `replacing(_:with:)` is modelled only for one-character patterns and replacements, the only form the source uses.
- Localisation and UI rendering are left out. So is whether an SF Symbols name exists in the symbol catalogue: that depends on an asset catalogue outside the source.
- WorkoutActivity.Name: states only that each name is non-empty. That the names are pairwise distinct, and that they are made of letters and spaces, is visible in the table but not proved.
