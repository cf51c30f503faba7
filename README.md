# Depletion strengthening, compositional heating and time-step selection in ASPECT

This project models three evaluation rules of the ASPECT mantle-convection code in Dafny and proves properties about them. Values are Dafny `real`s.

- **Depletion strengthening** (module `Rheology`, `depletion_strengthening.dfy`). The rheology reads fifteen parameters once from the parameter file. Thirteen are Katz et al. (2003) melting coefficients; the other two are the strengthening exponent `alpha_depletion` and the cap `delta_eta_depletion_max`. The viscosity multiplier at a point is `min(exp(alpha_depletion * clamp(F, 0, 1)), delta_eta_depletion_max)`, where `F` is the compositional field `maximum_melt_fraction`. The multiplier is `1.0` when that field does not exist. The exponential is a function parameter. The model relies only on `IsExponential`: `exp(0) = 1`, `exp > 0`, and `exp` is monotone.
- **Compositional heating** (module `HeatingModel`, `compositional_heating.dfy`). Reading the parameters extends the averaging mask and the per-field heating values to N+1 entries: the background field plus N compositional fields. A single value is repeated for every field. `Evaluate` writes two arrays in place. For each point it writes the inner product of the point's volume fractions with the heating values, and it writes a latent-heat term of exactly 0.
- **Time-step selection** (module `TimeStepping`, `time_stepping.dfy`). The manager's `ParseParameters` validates the list of plugin names, supplies the default list and creates one plugin per name. `ComputeTimeStepSize` folds the plugins' answers into the smallest step and the smallest reaction. It rejects any reaction other than `advance`. It then applies three caps: the maximum step, the growth limit and the first-step limit. Finally the termination criteria may shorten the step, and a step that is not positive is rejected.

Two points about the code itself:

- The strengthening cap is declared with `Patterns::Double (0)`, so any cap `>= 0` is accepted. The factor is therefore at least `min(1, cap)`, and with a cap below 1 it is below 1. It is exactly `min(1, cap)` when the depletion is 0 or `alpha_depletion = 0`. `CapBelowOneWeakens` proves the factor equals such a cap for every `alpha_depletion >= 0`.
- `compute_depl_effect` declares its result separately inside each branch, so the `return` names nothing in scope. It also types the composition as `unsigned int` while indexing it as a vector; the header types it `std::vector<double>`. And `parse_parameters` is defined on `DiffusionCreep<dim>` instead of `DepletionStrengthening<dim>`. The model follows the evident intent: one factor, defaulting to 1.0; a vector of field values; parsing into the depletion rheology's own fields.

## Model

| member | source | states |
|---|---|---|
| `Rheology.IndexForName` | source/material_model/rheology/depletion_strengthening.cc:49-52 | the lookup finds nothing exactly when no field has the name; otherwise it returns the first index holding that name |
| `Rheology.ClampToUnit` | source/material_model/rheology/depletion_strengthening.cc:53 | the depletion used lies in [0, 1]; values in [0, 1] are kept, values below 0 act as 0 and values above 1 act as 1 |
| `Rheology.StrengtheningFactor` | source/material_model/rheology/depletion_strengthening.cc:53-56 | the factor never exceeds the cap nor the exponential of alpha times the clamped depletion, and it is one of the two, so it is their minimum; it is either the cap or the exponential of alpha times the clamped depletion; with alpha >= 0 it is at least min(1, cap); with alpha = 0 it is exactly min(1, cap); it is positive when the cap is |
| `Rheology.DepletionStrengthening.ComputeDepletionEffect` | source/material_model/rheology/depletion_strengthening.cc:43-64 | without a `maximum_melt_fraction` field the factor is exactly 1; with one, the factor is at most the cap; with alpha >= 0 it is at least min(1, cap); with alpha = 0 and the field present it equals min(1, cap) |
| `Rheology.EffectReadsDepletionField` | source/material_model/rheology/depletion_strengthening.cc:49-56 | when the depletion field is at index i, the factor is the strengthening law applied to composition[i] |
| `Rheology.FactorMonotoneInDepletion` | source/material_model/rheology/depletion_strengthening.cc:53-56 | with a non-negative exponent, the factor is non-decreasing in the depletion field value |
| `Rheology.OutOfRangeDepletionIsClamped` | source/material_model/rheology/depletion_strengthening.cc:53-56 | a field value <= 0 gives min(1, cap); a value >= 1 gives min(exp(alpha), cap) |
| `Rheology.EffectDependsOnlyOnDepletionField` | source/material_model/rheology/depletion_strengthening.cc:43-56 | two points that agree on the depletion field get the same factor, whatever their pressure, temperature and other fields |
| `Rheology.DefaultParametersGiveNoStrengthening` | source/material_model/rheology/depletion_strengthening.cc:153-170 | with the declared defaults (alpha = 0, cap = 1000) the factor is 1 for every composition: the viscosity does not depend on the depletion |
| `Rheology.CapBelowOneWeakens` | source/material_model/rheology/depletion_strengthening.cc:164-165 | with any alpha >= 0, a cap in [0, 1), which the declared bounds allow, makes the factor equal to the cap and so below 1 |
| `Rheology.DeclaredDefaultsAreComplete` | source/material_model/rheology/depletion_strengthening.cc:72-170 | the declared defaults give every entry a value, meet the declared bounds, and set alpha = 0 and cap = 1000 |
| `Rheology.DepletionStrengthening.ParseParameters` | source/material_model/rheology/depletion_strengthening.cc:175-193 | each of the fifteen parameters takes the value of its entry |
| `HeatingModel.ExtendFrom1ToN` | source/heating_model/compositional_heating.cc:92-108 | a list extends exactly when its length is 1 or n; the result has n entries, each equal to the single value or to the entry at the same position; any other length is an error naming the list |
| `HeatingModel.Resize` | source/heating_model/compositional_heating.cc:99 | resizing keeps the existing prefix, pads with false and has the requested length |
| `HeatingModel.CompositionalHeating.ParseParameters` | source/heating_model/compositional_heating.cc:82-113 | the mask and the heating values both get N+1 entries; mask entry i is true exactly when the (broadcast) integer i is non-zero; a bad mask length fails and changes nothing; a bad heating-value length fails after the mask has been stored; success exactly when both lengths are 1 or N+1 |
| `HeatingModel.CompositionalHeating.Evaluate` | source/heating_model/compositional_heating.cc:34-52 | every point q below the output length gets the inner product of its own volume fractions with the heating values, and a latent-heat term of exactly 0; entries of the latent-heat array beyond that length are unchanged |
| `HeatingModel.HeatProduction` | source/heating_model/compositional_heating.cc:45-47 | the heat at one point: the sum over the point's fields of volume fraction times heating value; its meaning is stated by the lemmas below and by `Evaluate` |
| `HeatingModel.HeatProductionNonNegative` | source/heating_model/compositional_heating.cc:45-47 | non-negative volume fractions and non-negative heating values (declared `Patterns::Double(0)`) give a non-negative heat source |
| `HeatingModel.HeatProductionOfZeroValues` | source/heating_model/compositional_heating.cc:63-64 | with every heating value 0 (the declared default) the heat source is 0 |
| `HeatingModel.HeatProductionOfUniformValues` | source/heating_model/compositional_heating.cc:45-47 | with one heating value h for all fields the heat source is h times the sum of the volume fractions |
| `HeatingModel.HeatProductionOfPureField` | source/heating_model/compositional_heating.cc:45-47 | a point made entirely of field k produces exactly field k's heating value |
| `HeatingModel.HeatProductionOfZeroFractions` | source/heating_model/compositional_heating.cc:45-47 | all-zero volume fractions produce no heat |
| `HeatingModel.HeatProductionExample` | source/heating_model/compositional_heating.cc:45-49 | fractions (0.5, 0.3, 0.2) with heating values (0, 1e-6, 2e-6) give 7e-7 |
| `TimeStepping.MinReaction` | source/time_stepping/interface.cc:90 | the combination of two reactions is one of them and ranks no higher than either |
| `TimeStepping.MinProposedStep` | source/time_stepping/interface.cc:81-91 | the candidate step is at most every plugin's proposal and at most the largest double, and equals one of those |
| `TimeStepping.CombinedReaction` | source/time_stepping/interface.cc:82-90 | the combined reaction ranks no higher than any plugin's reaction and is either `advance` or some plugin's reaction |
| `TimeStepping.CombinedReactionIsAdvance` | source/time_stepping/interface.cc:82-95 | the combined reaction is `advance` exactly when every plugin answers `advance` |
| `TimeStepping.CappedStep` | source/time_stepping/interface.cc:100-108 | the capped step is at most the proposal and the maximum step; at most the growth limit when the previous step is non-zero; at most the first-step limit on step 0; and it equals one of those bounds |
| `TimeStepping.StepIndependentOfPluginOrder` | source/time_stepping/interface.cc:84-91 | plugin lists holding the same answers in any order give the same candidate step and the same reaction |
| `TimeStepping.MinProposedStepBelow` | source/time_stepping/interface.cc:84-89 | the minimum over one ordering is no larger than the minimum over any reordering |
| `TimeStepping.CombinedReactionBelow` | source/time_stepping/interface.cc:84-90 | the combined reaction of one ordering ranks no higher than that of any reordering |
| `TimeStepping.SelectedModels` | source/time_stepping/interface.cc:225-232 | a non-empty name list is used as given; an empty one becomes `convection time step`, followed by `conduction time step` exactly when the conduction flag is set |
| `TimeStepping.SelectedModelsAreUnique` | source/time_stepping/interface.cc:225-232 | the plugins used are never empty and never repeat a name; for an empty list the conduction step is included exactly when asked for |
| `TimeStepping.Manager.ParseParameters` | source/time_stepping/interface.cc:204-257 | the checkpoint flag is recorded; a list with duplicates is rejected; a non-empty list together with the conduction flag is rejected; otherwise one plugin per selected name is appended, in list order, and on failure no plugin is added |
| `TimeStepping.Manager.NeedCheckpointOnTerminate` | source/time_stepping/interface.cc:122-128 | returns the checkpoint-on-termination flag; `ParseParameters` ensures it equals the value read, and no other method changes it |
| `TimeStepping.Manager.ComputeTimeStepSize` | source/time_stepping/interface.cc:76-118 | the call fails with "not implemented" exactly when some plugin's reaction is not `advance`; it succeeds exactly when the reaction is `advance` and the adjusted capped minimum is positive, and returns that value; if the termination adjustment never lengthens a step, the result is at most every proposal, the maximum step, the growth limit (previous step non-zero) and the first-step limit (step 0) |

## Left out

- Melt fraction: `melt_fraction` is only declared in include/aspect/material_model/rheology/depletion_strengthening.h, with no body. The thirteen melting coefficients are read and kept in `MeltingCoefficients`, but no melting law is modelled.
- Parameter-file text: declaring entries, splitting lists and converting strings to numbers belong to deal.II's ParameterHandler. The model starts from parsed values: a `map<Entry, real>` for the rheology, and lists of integers and reals for the heating model. Range checks that ParameterHandler applies, such as `Patterns::Integer(0,1)`, are not repeated.
- The exponential: it is a parameter `exp` constrained by `IsExponential`. IEEE rounding, overflow and NaN are not modelled anywhere.
- `compute_volume_fractions` is not part of this model. `Evaluate` takes it as a parameter, and the only requirement is the one its call site needs: for each point it returns at most as many fractions as there are heating values.
- The simulator's introspection is modelled as a first-match search over the field names (`IndexForName`).
- `possibly_extend_from_1_to_N`'s body is not part of this model. `ExtendFrom1ToN` follows its documented behaviour: repeat one value, keep n values, reject anything else.
- Plugins: `execute()` is a collaborator. Its answers are passed to `ComputeTimeStepSize`, one per active plugin. Creating a plugin is modelled as recording its name. The plugin's `initialize_simulator`, `parse_parameters` and `initialize` calls are not modelled, and neither is `create_plugin` rejecting an unregistered name.
- TimeStepping.Manager.ComputeTimeStepSize: its bounds on the returned step hold only under `NeverLengthens`. `termination_manager.check_for_last_time_step` is not part of this model; it is a parameter whose "never lengthens" property is an explicit assumption.
- The termination manager's own parsing, `should_simulation_terminate_now`, `initialize_simulator`, plugin registration, `write_plugin_graph` and `get_valid_model_names_pattern`: these are factory, graph-output and registry machinery, not evaluation rules.
- The order of the `Reaction` enumeration is declared in include/aspect/time_stepping/interface.h, which is not part of this model. The model takes `advance` as the greatest value, the only order in which the min-fold that starts at `advance` (interface.cc:82, 90) rejects every reaction other than `advance`, as the check at interface.cc:94 intends.
- `unsigned int` indices and counts are unbounded `nat`s, and `std::vector` copies are values.
- Postprocessors (geoid, boundary velocity residual) and the remaining headers are not part of this model.
