# iop_flow — a verified model of the flow-bench core

iop_flow is a flow-bench toolkit for cylinder heads. An operator records, lift by lift, the
flow through a head's intake or exhaust port at a test pressure. The library then:

- refers each reading to standard conditions (28 inH2O in air at 20 °C);
- derives the valve areas, the discharge coefficient, the port velocities and Mach, and
  swirl and tumble;
- aggregates the results over a lift series (E/I, the comparison of two sessions);
- feeds engine-side estimates: the RPM limited by head flow, the RPM a port section supports,
  horsepower, and intake-runner and plenum tuning;
- offers a wizard whose state turns the operator's text fields into a validated `Session`.

This project models that core in Dafny: the formulas, the data schemas and their dictionary
round trips, per-point normalisation and metrics, series computation and lift alignment,
engine links, session comparison, tuning, the HP estimate, the two API entry points and both
copies of the wizard state. Every Python `raise ValueError` becomes an `Err` of a `Result`.
A Python `None` becomes an `Option`. Floating point is modelled by exact reals. `sqrt`,
`exp` and `pow` are supplied by a `RealMath.MathLib` value whose only assumed laws are
listed in `RealMath.Lawful`.

Modules:

- `Wrappers`: `Option` and `Result`.
- `RealMath`: the `MathLib` parameter and sign lemmas.
- `PyNum`: `round(x, 3)` and `float(text)` on decimal literals.
- `PyText`: `str.split`, `str.join`, `str.strip` and lowercasing.
- `Formulas`: `formulas.py`.
- `Schemas` and `Wire`: `schemas.py` and the JSON-like values of `to_dict`/`from_dict`.
- `Normalize`: `normalize.py`.
- `ComputePoint`: `compute_point.py`.
- `Alignment` and `ComputeSeries`: `compute_series.py`.
- `EngineLink`: `engine_link.py`.
- `Compare`: `compare.py`.
- `Sorting`: the `sorted`/`max`/`min` calls of `engine_link.py`, and the wizard's `sorted(by_lift.keys())` in `to_points` and `_sorted_unique`.
- `Tuning`: `tuning.py`.
- `Hp`: `hp.py`.
- `Api`: `api.py`.
- `WizardParse`, `WizardGrid`, `Wizard`: `src/iop_flow_gui/wizard/state.py`.
- `QuarantinedWizard`: `contrib/gui_quarantined/iop_flow_gui/wizard/state.py`.

## Model

| member | source | states |
|---|---|---|
| Formulas.PSatWaterPa | src/iop_flow/formulas.py:56-60 | Tetens saturation pressure: defined exactly when Tc + 237.3 is non-zero, and positive under a lawful exp |
| Formulas.AirDensity | src/iop_flow/formulas.py:63-69 | defined exactly when T is neither 0 nor the Tetens pole; positive for T > 0; dry air above 1 Pa obeys the ideal-gas law rho R T = p |
| Formulas.SpeedOfSoundWith | src/iop_flow/formulas.py:72-74 | defined exactly when gamma R T >= 0; the result is the non-negative root, zero only at zero |
| Formulas.SpeedOfSound | src/iop_flow/formulas.py:72-74 | for air: defined exactly when T >= 0; c^2 = 1.4 * 287.058 * T; positive exactly when T > 0 |
| Formulas.InH2OToPa | src/iop_flow/formulas.py:82-84 | the inverse of PaToInH2O (dividing by 249.0889 gives back the input); keeps the sign |
| Formulas.PaToInH2O | src/iop_flow/formulas.py:87-89 | the inverse of InH2OToPa |
| Formulas.CfmToM3s | src/iop_flow/formulas.py:92-93 | the inverse of M3sToCfm |
| Formulas.M3sToCfm | src/iop_flow/formulas.py:96-97 | the inverse of CfmToM3s |
| Formulas.CToK | src/iop_flow/formulas.py:100-101 | the Kelvin value is non-negative exactly when the Celsius value is at least -273.15 |
| Formulas.FToK | src/iop_flow/formulas.py:104-105 | Fahrenheit goes through Celsius; 32 F is 0 C and 212 F is 100 C |
| Formulas.FlowReferenced | src/iop_flow/formulas.py:108-116 | defined exactly when all four pressures and densities are positive; keeps the sign of the measured flow |
| Formulas.FlowReferencedSquared | src/iop_flow/formulas.py:108-116 | q*^2 = q^2 (dp*/dp)(rho/rho*) |
| Formulas.FlowReferencedIdentity | src/iop_flow/formulas.py:108-116 | referring to the conditions of the measurement leaves the flow unchanged |
| Formulas.FlowReferencedDpOnly | src/iop_flow/formulas.py:108-116 | in the same air only the pressure ratio scales the flow |
| Formulas.FlowTo28InH2O | src/iop_flow/formulas.py:120-128 | a non-positive test pressure is an error; without a reference state the measured air is reused and the result is defined |
| Formulas.FlowTo28AtReference | src/iop_flow/formulas.py:120-128 | a reading at 28 inH2O with no reference state comes back unchanged |
| Formulas.AreaThroat | src/iop_flow/formulas.py:136-140 | defined exactly when 0 <= stem < throat; positive and at most the full disc, equal to it without a stem |
| Formulas.AreaCurtain | src/iop_flow/formulas.py:143-147 | defined exactly when d > 0 and the lift is non-negative; zero exactly at zero lift |
| Formulas.AreaCurtainIncreasing | src/iop_flow/formulas.py:143-147 | strictly increasing in lift |
| Formulas.LdRatio | src/iop_flow/formulas.py:150-153 | defined exactly when d > 0; (L/D) D = L |
| Formulas.AreaEffSmoothmin | src/iop_flow/formulas.py:161-167 | an error for a non-positive area or n < 1; under lawful pow, defined exactly otherwise and positive |
| Formulas.LogisticWeight | src/iop_flow/formulas.py:178 | the weight lies strictly between 0 and 1 |
| Formulas.AreaEffLogistic | src/iop_flow/formulas.py:170-179 | defined exactly for positive areas; the blend lies between the smaller and the larger area and equals both when they agree |
| Formulas.ConvexBetween | src/iop_flow/formulas.py:179 | a convex combination with 0 < w < 1 lies between its two ends |
| Formulas.Cd | src/iop_flow/formulas.py:187-191 | defined exactly when q >= 0, A > 0, dp > 0 and rho > 0; non-negative; Cd A sqrt(2 dp/rho) = q |
| Formulas.CdDecreasingInArea | src/iop_flow/formulas.py:187-191 | for the same positive flow, a smaller reference area gives a larger Cd |
| Formulas.CdSAE | src/iop_flow/formulas.py:194-199 | defined exactly when the referred flow and Cd at the reference state are defined; Cd times A_ref·sqrt(2·dp*/ρ*) is the flow referred to the reference state |
| Formulas.CdSAEAtMeasured | src/iop_flow/formulas.py:194-199 | with the reference state equal to the measured one, SAE Cd is the plain Cd |
| Formulas.VelocityFromFlow | src/iop_flow/formulas.py:207-211 | defined exactly for positive area; v A = q |
| Formulas.MachFromVelocity | src/iop_flow/formulas.py:214-219 | defined exactly for T > 0 under a lawful sqrt; M c = v |
| Formulas.VelocityPitot | src/iop_flow/formulas.py:222-226 | defined exactly when dp >= 0, rho > 0 and C > 0; rho v^2 = 2 C^2 dp and v >= 0 |
| Formulas.SwirlRatioFromWheelRpm | src/iop_flow/formulas.py:234-243 | defined exactly for positive bore; the ratio has the sign of the wheel speed and is zero exactly when it is |
| Formulas.SwirlRatioRimSpeed | src/iop_flow/formulas.py:234-243 | SR · max(1e-12, V̄) with V̄ = Q / (π·bore²/4) equals the rim speed ω·R, ω = 2π·rpm/60 and R = bore/2 |
| Formulas.SwirlRatioLinear | src/iop_flow/formulas.py:234-243 | the swirl ratio is proportional to the wheel speed |
| Formulas.MomentRatioDiscrete | src/iop_flow/formulas.py:246-278 | the accumulating loop computes the moment ratio of the samples, an error when the axial denominator or R is not positive |
| Formulas.SwirlNumberDiscrete | src/iop_flow/formulas.py:246-261 | swirl number: the moment ratio of (u_theta, u_z, r, dA) samples |
| Formulas.TumbleNumberDiscrete | src/iop_flow/formulas.py:264-278 | tumble number: the same moment ratio on (u_y, u_z, x, dA) samples |
| Formulas.AxialDenNonNegative | src/iop_flow/formulas.py:246-261 | with non-negative area weights the axial denominator is non-negative |
| Formulas.MomentNumReversed | src/iop_flow/formulas.py:246-261 | reversing every tangential velocity negates the numerator and keeps the denominator |
| Formulas.MomentRatioReversed | src/iop_flow/formulas.py:246-278 | swirl changes sign with the sense of rotation and is defined for the same samples |
| Formulas.EiRatio | src/iop_flow/formulas.py:286-289 | defined exactly for a positive intake flow; E/I times intake = exhaust |
| Formulas.PercentChange | src/iop_flow/formulas.py:292-295 | defined exactly for a non-zero base; applying the percentage to the base gives the new value |
| Formulas.EngineVolumetricFlow | src/iop_flow/formulas.py:303-313 | defined exactly for positive displacement, RPM >= 0 and VE >= 0; non-negative, positive exactly when RPM and VE are |
| Formulas.RpmLimitedByFlow | src/iop_flow/formulas.py:316-323 | defined exactly for positive inputs; the RPM at which the engine demands exactly the head flow |
| Formulas.RpmRecoveredFromDemand | src/iop_flow/formulas.py:303-323 | the flow-limited RPM inverts the volumetric-flow demand |
| Formulas.RpmFromCsa | src/iop_flow/formulas.py:326-334 | defined exactly for positive inputs; the flow-limited RPM of the flow A v |
| Formulas.MachAtMinCsa | src/iop_flow/formulas.py:337-340 | defined exactly when A > 0 and T > 0; the Mach number of the velocity q / A |
| Formulas.HeaderCsaRequired | src/iop_flow/formulas.py:348-352 | defined exactly for a positive target velocity; A v = q |
| Formulas.Clamp | src/iop_flow/formulas.py:360-361 | within ordered bounds the result is in range and is x when x is; crossed bounds give lo |
| Wire.OptNum | src/iop_flow/schemas.py:19-20 | an absent optional field is JSON null and a present one its number |
| Wire.AsReal | src/iop_flow/schemas.py:41-42 | a JSON float, int or bool (True as 1, False as 0) reads as that real; nothing else does |
| Wire.AsWhole | src/iop_flow/schemas.py:53-56 | a number with no fractional part (an int, a bool or a float such as 4.0) reads as that whole number; nothing else does |
| Wire.RequiredNum | src/iop_flow/schemas.py:41-42 | a required keyword argument: present and numeric, else an error |
| Wire.OptionalNum | src/iop_flow/schemas.py:112-114 | an optional keyword argument: absent gives the default, null gives None, a number gives it, anything else is an error |
| Wire.OmitNone | src/iop_flow/schemas.py:19-20 | exactly the non-null entries, each unchanged |
| Schemas.CheckPos | src/iop_flow/schemas.py:7-10 | accepts exactly the positive values and returns them unchanged |
| Schemas.CheckNonNeg | src/iop_flow/schemas.py:13-16 | accepts exactly the non-negative values and returns them unchanged |
| Schemas.CheckOptPos | src/iop_flow/schemas.py:90-93 | an optional value is accepted when absent or positive |
| Schemas.MkAirConditions | src/iop_flow/schemas.py:31-35 | accepts exactly p > 0, T > 0 and 0 <= RH <= 1 |
| Schemas.AirToDict | src/iop_flow/schemas.py:37-38 | all three fields, null or not |
| Schemas.AirFromDict | src/iop_flow/schemas.py:41-42 | only known keys, and the result is valid |
| Schemas.AirRoundTrip | src/iop_flow/schemas.py:37-42 | from_dict(to_dict(a)) == a |
| Schemas.MkEngine | src/iop_flow/schemas.py:53-58 | accepts exactly displacement > 0, cylinders > 0 and VE absent or >= 0 |
| Schemas.EngineToDict | src/iop_flow/schemas.py:60-61 | the ve key is present exactly when VE is |
| Schemas.EngineFromDict | src/iop_flow/schemas.py:53-65 | only known keys, and the result is valid; the cylinder count may be an int, a bool or a whole float |
| Schemas.EngineRoundTrip | src/iop_flow/schemas.py:60-65 | from_dict(to_dict(e)) == e |
| Schemas.MkGeometry | src/iop_flow/schemas.py:85-107 | accepts exactly the geometries the post-init checks let through |
| Schemas.GeometryLeavesValvesUnchecked | src/iop_flow/schemas.py:85-107 | the checks do not compare the throat with the valve diameters and leave the seat angle free |
| Schemas.GeometryToDict | src/iop_flow/schemas.py:109-110 | only known keys and no nulls |
| Schemas.GeometryFromDict | src/iop_flow/schemas.py:112-114 | only known keys, and the result is valid |
| Schemas.GeometryFieldsEntries | src/iop_flow/schemas.py:109-110 | every field appears under its own name before nulls are dropped |
| Schemas.GeometryRequiredRead | src/iop_flow/schemas.py:109-114 | each required field reads back from to_dict |
| Schemas.GeometryOptionalRead | src/iop_flow/schemas.py:109-114 | each optional field reads back from to_dict, absent ones as None |
| Schemas.NumRoundTrip | src/iop_flow/schemas.py:19-20 | a number survives dropping nulls |
| Schemas.OptNumRoundTrip | src/iop_flow/schemas.py:19-20 | an optional number survives dropping nulls, null coming back as None |
| Schemas.GeometryRoundTrip | src/iop_flow/schemas.py:109-114 | from_dict(to_dict(g)) == g |
| Schemas.MkLiftPoint | src/iop_flow/schemas.py:126-132 | accepts exactly lift >= 0, q >= 0, dp absent or > 0 and swirl absent or >= 0 |
| Schemas.LiftPointToDict | src/iop_flow/schemas.py:134-135 | the dp and swirl keys are present exactly when those fields are |
| Schemas.LiftPointFromDict | src/iop_flow/schemas.py:121-124 | only known keys, a valid point, and a missing dp reads as the 28 inH2O default |
| Schemas.LiftPointRoundTrip | src/iop_flow/schemas.py:123-139 | the round trip is the identity except that a point without dp comes back at 28 inH2O |
| Schemas.PointsToJson | src/iop_flow/schemas.py:149-153 | one dictionary per point, in order |
| Schemas.PointsFromJson | src/iop_flow/schemas.py:155-160 | succeeds exactly when every element parses, and then gives those points in order |
| Schemas.SideFromDict | src/iop_flow/schemas.py:158-159 | a missing side, an empty dictionary and empty text are the empty list; a list is read point by point |
| Schemas.FlowSeriesFromDict | src/iop_flow/schemas.py:155-160 | every point of both sides is valid |
| Schemas.PointsRoundTrip | src/iop_flow/schemas.py:149-160 | a list of points with dp given survives the round trip |
| Schemas.FlowSeriesRoundTrip | src/iop_flow/schemas.py:149-160 | from_dict(to_dict(f)) == f when every point gives dp |
| Schemas.MkCSAProfile | src/iop_flow/schemas.py:170-174 | accepts exactly areas that are absent or positive |
| Schemas.CSAToDict | src/iop_flow/schemas.py:176-177 | empty exactly when both areas are absent |
| Schemas.CSAFromDict | src/iop_flow/schemas.py:179-181 | the result is valid |
| Schemas.CSARoundTrip | src/iop_flow/schemas.py:176-181 | from_dict(to_dict(c)) == c |
| Schemas.SessionToDict | src/iop_flow/schemas.py:201-214 | csa and tuning are written exactly when present |
| Schemas.SessionToDictKeys | src/iop_flow/schemas.py:202-209 | the six mandatory sections are always written |
| Schemas.SessionMapKeys | src/iop_flow/schemas.py:202-213 | the dictionary has the six mandatory sections plus csa and tuning at most |
| Schemas.SessionMapCore | src/iop_flow/schemas.py:202-209 | each mandatory section holds what was supplied for it |
| Schemas.SessionMapOptional | src/iop_flow/schemas.py:210-213 | csa and tuning are present exactly when supplied |
| Schemas.SessionDictEntries | src/iop_flow/schemas.py:201-214 | each section holds the to_dict of its part |
| Schemas.SessionFromDict | src/iop_flow/schemas.py:216-227 | a valid session; the mode is copied as given, csa is read exactly when its entry is truthy and tuning is copied as given |
| Schemas.SessionFromEntries | src/iop_flow/schemas.py:216-227 | sections that parse to the parts of s give back s |
| Schemas.SessionRoundTrip | src/iop_flow/schemas.py:201-227 | from_dict(to_dict(s)) == s when every point gives dp and a present CSA has an area |
| Schemas.EmptyCSAComesBackAsNone | src/iop_flow/schemas.py:211-225 | a CSA profile with neither area is written as {}, which is falsy, so it comes back as None |
| Normalize.NormalizeLiftPoint | src/iop_flow/normalize.py:24-63 | fails exactly on a non-positive test or reference pressure or a Tetens pole; otherwise every field is the conversion of its input, dp falls back to the reference, rho_ref falls back to rho_meas, and q_ref is the referred flow with the sign of q |
| Normalize.NormalizeSquaredRatios | src/iop_flow/normalize.py:51-52 | q_ref^2 = q_meas^2 (dp_ref/dp_meas)(rho_meas/rho_ref), with a ratio of 1 when dp is missing |
| Normalize.DpRatioOfPoint | src/iop_flow/normalize.py:41-51 | the pressure ratio used is dp_ref over dp_meas, or 1 without a measured dp |
| Normalize.NormalizeIdentity | src/iop_flow/normalize.py:37-52 | a point measured at the reference pressure in the reference air keeps its flow |
| Normalize.NormalizeDpScaling | src/iop_flow/normalize.py:51-52 | in the same air the flow scales by sqrt(dp_ref / dp_meas) |
| Normalize.NormalizeSeries | src/iop_flow/normalize.py:66-76 | succeeds exactly when every point normalises, and then maps the points one to one, in order |
| ComputePoint.SideValve | src/iop_flow/compute_point.py:52 | the intake valve for the intake side, the exhaust valve otherwise |
| ComputePoint.SideThroat | src/iop_flow/compute_point.py:56-60 | the side's own throat when given, else the common throat; larger than the stem for a valid geometry |
| ComputePoint.EffectiveArea | src/iop_flow/compute_point.py:64-71 | an unknown blend or a non-positive area is an error; otherwise a positive area |
| ComputePoint.PointAreas | src/iop_flow/compute_point.py:52-71 | curtain, throat, L/D and blend are those of the side's valve and throat; defined for a valid geometry, a positive lift and a known blend |
| ComputePoint.SelectRefArea | src/iop_flow/compute_point.py:73-83 | the throat, curtain or blended area by name; any other name is an error |
| ComputePoint.FlowAt | src/iop_flow/compute_point.py:85-91 | a non-positive reference area is an error; Cd, V and Mach are those of the formulas at the reference air |
| ComputePoint.ComputeMetricsForPoint | src/iop_flow/compute_point.py:28-106 | unknown modes and a zero lift are errors; every output row field is the formula of its inputs, the area key names the mode, V A = q |
| ComputePoint.ComputeMetricsSucceeds | src/iop_flow/compute_point.py:28-106 | valid geometry and air, a positive lift and known modes always give metrics |
| ComputePoint.ComputeSwirlForPoint | src/iop_flow/compute_point.py:14-25 | no swirl reading gives no SR; otherwise the wheel swirl ratio, with the sign of the wheel speed |
| Alignment.AlignIdx | src/iop_flow/compute_series.py:66-79 | the two-index walk pairs indices that are in range, strictly increasing on both sides and within the tolerance in lift |
| Alignment.Lifts | src/iop_flow/compute_series.py:69-70 | the lift column of a series, in order |
| Alignment.MapPairs | src/iop_flow/compute_series.py:72 | the row pairs that an index list names |
| Alignment.AlignedWithinTolerance | src/iop_flow/compute_series.py:56-79 | every aligned pair agrees in lift within the tolerance; there are no more pairs than rows on either side |
| Alignment.AlignIdentical | src/iop_flow/compute_series.py:68-74 | a lift grid aligned with itself pairs every index with itself |
| Alignment.AlignedSameGrid | src/iop_flow/compute_series.py:56-79 | two series on the same lift grid are paired row by row, completely |
| ComputeSeries.SideLifts | src/iop_flow/compute_series.py:32 | the intake points for the intake side, the exhaust points otherwise |
| ComputeSeries.PointRow | src/iop_flow/compute_series.py:41-52 | one output row: the point metrics updated with the swirl ratio, defined when both are |
| ComputeSeries.MetricsRowsOk | src/iop_flow/compute_series.py:40-52 | the rows are computed exactly when every point gives a row |
| ComputeSeries.MetricsRowsItems | src/iop_flow/compute_series.py:40-52 | row i is the row of point i |
| ComputeSeries.MetricsRowsErrSticks | src/iop_flow/compute_series.py:40-52 | the first failing point makes the whole series fail |
| ComputeSeries.SeriesIsPointwise | src/iop_flow/compute_series.py:14-53 | no points give no rows; otherwise the series is defined exactly when every point normalises and gives a row, and it is those rows one to one, in order |
| ComputeSeries.ComputeSeriesRows | src/iop_flow/compute_series.py:14-53 | the loop computes the series specification |
| ComputeSeries.RowsLoop | src/iop_flow/compute_series.py:39-53 | the accumulating loop over normalised points computes the pointwise rows, stopping at the first error |
| ComputeSeries.AlignByLift | src/iop_flow/compute_series.py:56-79 | the while loop computes the alignment walk |
| ComputeSeries.EiOf | src/iop_flow/compute_series.py:95-106 | a pair with a non-positive intake flow is skipped; otherwise lift, q_int and q_exh are copied and EI q_int = q_exh |
| ComputeSeries.EiRowsRatio | src/iop_flow/compute_series.py:94-106 | every E/I row has a positive intake flow and EI q_int = q_exh |
| ComputeSeries.EiRowsFull | src/iop_flow/compute_series.py:94-106 | when every intake flow is positive, no pair is skipped and row k comes from pair k |
| ComputeSeries.ComputeEi | src/iop_flow/compute_series.py:82-107 | the loop computes the E/I rows of the aligned pairs |
| ComputeSeries.EiFullOnSameGrid | src/iop_flow/compute_series.py:82-107 | on a common lift grid with positive intake flow there is one E/I row per lift |
| EngineLink.TopCount | src/iop_flow/engine_link.py:20-21 | k = max(1, ceil(n/3)): at least one, at least a third, and no more than n |
| EngineLink.TopThird | src/iop_flow/engine_link.py:22 | the last k values of the sorted list |
| EngineLink.TopThirdIsLargest | src/iop_flow/engine_link.py:22 | every value kept is at least every value dropped |
| EngineLink.SelectQHead | src/iop_flow/engine_link.py:12-24 | defined exactly for a non-empty, all-positive list and a known strategy; max gives the maximum, mean_top_third the mean of the top third |
| EngineLink.SelectQHeadPositive | src/iop_flow/engine_link.py:12-24 | the selected head flow is positive |
| EngineLink.SelectQHeadBetween | src/iop_flow/engine_link.py:12-24 | the selected head flow lies between the smallest and largest flow |
| EngineLink.MeanTopThirdBetween | src/iop_flow/engine_link.py:19-23 | the top-third mean lies between the smallest and largest value |
| EngineLink.TopThirdBetween | src/iop_flow/engine_link.py:22 | every kept value is one of the range of the list |
| EngineLink.SelectQHeadGrows | src/iop_flow/engine_link.py:12-24 | raising every flow by an increasing map raises the selected head flow |
| EngineLink.MeanTopThirdGrows | src/iop_flow/engine_link.py:19-23 | the same for the top-third mean |
| EngineLink.TopThirdMap | src/iop_flow/engine_link.py:22 | an increasing map commutes with taking the top third |
| EngineLink.ResolveVe | src/iop_flow/engine_link.py:27-31 | the engine's VE when given, else the fallback; defined exactly when that value is positive |
| EngineLink.ZeroVeRefused | src/iop_flow/engine_link.py:27-31 | a zero VE, which Engine accepts, is refused here |
| EngineLink.Flows | src/iop_flow/engine_link.py:50-57 | the flow column of a series, in order |
| EngineLink.RpmForSeries | src/iop_flow/engine_link.py:34-64 | defined exactly for a non-empty all-positive series, a known strategy and a positive VE; a positive RPM at which the engine demands exactly the selected head flow |
| EngineLink.RpmLimitedByFlowForSeries | src/iop_flow/engine_link.py:34-64 | the loop collecting flows computes the series RPM |
| EngineLink.MapFlows | src/iop_flow/engine_link.py:50-57 | a series with every flow mapped and the rest kept |
| EngineLink.FlowsMap | src/iop_flow/engine_link.py:50-57 | mapping the flows of a series maps its flow column |
| EngineLink.RpmLimitedIncreasing | src/iop_flow/formulas.py:316-323 | more head flow gives a strictly higher RPM |
| EngineLink.RpmForSeriesGrows | src/iop_flow/engine_link.py:34-64 | raising every flow of a series raises its flow-limited RPM |
| EngineLink.RpmForSeriesScales | src/iop_flow/engine_link.py:34-64 | scaling every flow by c > 1 raises the RPM |
| EngineLink.RpmForSeriesUnfold | src/iop_flow/engine_link.py:59-64 | the series RPM is the flow-limited RPM of the selected head flow |
| EngineLink.RpmFromCsaWithTarget | src/iop_flow/engine_link.py:67-87 | no average CSA gives None; otherwise defined exactly for positive area, target velocity and VE, and then the RPM that the area supports |
| EngineLink.RpmFromCsaIncreasing | src/iop_flow/engine_link.py:67-87 | a higher target velocity gives a higher RPM |
| EngineLink.RpmLimitedStrict | src/iop_flow/formulas.py:316-323 | strict monotonicity of the flow-limited RPM in the head flow |
| EngineLink.MachRow | src/iop_flow/engine_link.py:102-108 | a non-positive flow is an error; otherwise the Mach number at the minimum section |
| EngineLink.MachRows | src/iop_flow/engine_link.py:101-109 | defined exactly when every row is, and then one Mach number per row, in order |
| EngineLink.MachRowsErrSticks | src/iop_flow/engine_link.py:101-109 | the first failing row makes the whole list fail |
| EngineLink.MachSeriesSpec | src/iop_flow/engine_link.py:90-109 | a non-positive section is an error; defined exactly for a positive section and all-positive flows; entry i is the Mach number of q_i / A_min |
| EngineLink.MachAtMinCsaForSeries | src/iop_flow/engine_link.py:90-109 | the loop computes the Mach list specification |
| Compare.AlignByLift | src/iop_flow/compare.py:6-30 | the while loop computes the alignment walk of compute_series, with the same branch on the sign of the difference |
| Compare.FieldJson | src/iop_flow/compare.py:80-82 | row[key] of a metrics row: the named field, SR only when present, an error for a key the row does not have |
| Compare.FieldAt | src/iop_flow/compare.py:45 | float(row[key]): defined exactly for a numeric field, and then that value |
| Compare.DiffOf | src/iop_flow/compare.py:44-64 | a missing key is an error; before <= 0 is skipped; otherwise delta_pct before = 100 (after - before), with after scaled by the flow ratio for Cd, V and Mach and read from the after row otherwise |
| Compare.DiffRows | src/iop_flow/compare.py:33-65 | defined exactly when every pair is; no more rows than pairs; every row has a positive base |
| Compare.DiffRowsNoneSkipped | src/iop_flow/compare.py:43-65 | when no pair is skipped, row i is the difference of pair i |
| Compare.DiffRowsErrSticks | src/iop_flow/compare.py:43-65 | the first failing pair makes the whole list fail |
| Compare.DiffStep | src/iop_flow/compare.py:45-64 | one loop iteration computes the difference of one pair |
| Compare.DiffPercent | src/iop_flow/compare.py:33-65 | the loop computes the difference list |
| Compare.TenPercentFlowGain | src/iop_flow/compare.py:48-56 | 10 % more flow shows as +10 % in q and, by propagation of the ratio, +10 % in Cd |
| Compare.TenPercentOf | src/iop_flow/compare.py:56 | an after value 1.1 times the before value is a 10 % change |
| Compare.OverlayItemOk | src/iop_flow/compare.py:80-82 | an overlay item is built exactly when the row has every requested key |
| Compare.OverlayItemLast | src/iop_flow/compare.py:81-82 | the last key is written last, over whatever the earlier keys wrote |
| Compare.OverlayItemKeys | src/iop_flow/compare.py:80-82 | the item holds series_idx, lift_m and the requested keys and nothing else; series_idx is the series index and lift_m the row's lift |
| Compare.OverlayItemValues | src/iop_flow/compare.py:81-82 | every requested key holds the row's value for it |
| Compare.OverlaySeriesOk | src/iop_flow/compare.py:79-83 | a series is overlaid exactly when every row gives an item |
| Compare.OverlaySeriesItems | src/iop_flow/compare.py:79-83 | item i of a series is the item of row i |
| Compare.OverlayAllOk | src/iop_flow/compare.py:68-84 | the overlay is defined exactly when every series is |
| Compare.OverlayPlacement | src/iop_flow/compare.py:68-84 | row i of series k lands at position (rows of the earlier series) + i, tagged with k: input order is kept |
| Compare.OverlayErrSticks | src/iop_flow/compare.py:78-83 | a failing series makes the whole overlay fail |
| Compare.SeriesErrSticks | src/iop_flow/compare.py:79-83 | a failing row makes its series fail |
| Compare.ItemErrSticks | src/iop_flow/compare.py:81-82 | a missing key makes the item fail |
| Compare.BuildItem | src/iop_flow/compare.py:80-82 | the inner loop computes one overlay item |
| Compare.Overlay | src/iop_flow/compare.py:68-84 | the nested loops compute the overlay specification |
| Sorting.InsertPerm | src/iop_flow/engine_link.py:22 | insertion adds exactly the inserted value to the multiset |
| Sorting.InsertSorted | src/iop_flow/engine_link.py:22 | inserting into a sorted list keeps it sorted |
| Sorting.SortAscSorted | src/iop_flow/engine_link.py:22 | sorted(values) is in ascending order |
| Sorting.SortAscPerm | src/iop_flow/engine_link.py:22 | sorted(values) is a permutation of values |
| Sorting.SortAscKeeps | src/iop_flow/engine_link.py:22 | a sorted list sorts to itself |
| Sorting.SeqMaxIsMax | src/iop_flow/engine_link.py:18 | max(values) is an element of values and at least every element |
| Sorting.SeqMinIsMin | src/iop_flow/engine_link.py:12-24 | the minimum is an element and at most every element |
| Sorting.SortMap | src/iop_flow/engine_link.py:22 | sorting commutes with an increasing map |
| Sorting.MaxMap | src/iop_flow/engine_link.py:18 | the maximum commutes with an increasing map |
| Sorting.MeanBounds | src/iop_flow/engine_link.py:23 | a mean lies within the bounds of its values |
| Sorting.MeanStrict | src/iop_flow/engine_link.py:23 | pointwise larger values have a larger mean |
| Tuning.QuarterWaveLength | src/iop_flow/tuning.py:20-36 | defined exactly for a > 0, f > 0 and order >= 1; max(0, L_eff - c r) |
| Tuning.EventFreqFromRpm | src/iop_flow/tuning.py:39-46 | defined exactly for rpm > 0; 120 f = rpm |
| Tuning.CsaFromFlowAndVelocity | src/iop_flow/tuning.py:49-52 | defined exactly for q > 0 and v > 0; A v = q |
| Tuning.DiameterFromCsa | src/iop_flow/tuning.py:55-58 | defined exactly for A > 0; the positive diameter whose circle has area A |
| Tuning.HelmholtzPlenumVolumeForFreq | src/iop_flow/tuning.py:61-69 | defined exactly for positive f, neck area, neck length and a; a positive volume |
| Tuning.HelmholtzVolumeDecreasing | src/iop_flow/tuning.py:61-69 | a higher target frequency needs a smaller plenum |
| Tuning.ScoreResonanceAlignment | src/iop_flow/tuning.py:72-74 | non-negative, zero exactly on target, symmetric in its arguments |
| Tuning.RpmFromQuarterWave | src/iop_flow/tuning.py:77-90 | defined exactly for a > 0, L > 0, order >= 1 and a non-zero effective length; positive for a positive effective length |
| Tuning.QuarterWaveRoundTrip | src/iop_flow/tuning.py:20-90 | the RPM of the length tuned for an RPM is that RPM, when the length is not clipped to 0 |
| Tuning.QuarterWaveLPhys | src/iop_flow/tuning.py:143-161 | defined exactly for T >= 0; non-negative, and 0 for a non-positive tuning frequency |
| Tuning.QuarterWaveRpmForL | src/iop_flow/tuning.py:164-182 | defined exactly for T >= 0; 0 for a non-positive effective length or harmonic; positive otherwise at T > 0 |
| Tuning.QuarterWaveInverse | src/iop_flow/tuning.py:143-182 | the RPM of the length recommended for an RPM is that RPM |
| Tuning.HelmholtzFAndRpm | src/iop_flow/tuning.py:185-203 | defined exactly for T >= 0; (0, 0) for degenerate inputs; otherwise rpm n = 120 f |
| Tuning.HelmholtzInverse | src/iop_flow/tuning.py:61-203 | the plenum volume for the Helmholtz frequency of a plenum is that plenum's volume |
| Tuning.HelmholtzAlgebra | src/iop_flow/tuning.py:65-69 | f = (a / 2 pi) sqrt(A / (V L)) inverts to V |
| Tuning.GridPointBounds | src/iop_flow/tuning.py:129-131 | every grid point lies within the bounds; the first is the lower and the last the upper bound |
| Tuning.Evaluate | src/iop_flow/tuning.py:129-136 | a candidate has the order, the grid length, the grid diameter and its circle area; its score is non-negative |
| Tuning.Pick | src/iop_flow/tuning.py:137-138 | the best so far is replaced only by a strictly smaller score |
| Tuning.BestFrom | src/iop_flow/tuning.py:124-138 | the scan is defined exactly when every candidate evaluates; it finds none only when it starts with none and has no candidates |
| Tuning.BestFromAppend | src/iop_flow/tuning.py:125-138 | scanning two parts in turn is scanning their concatenation |
| Tuning.BestFromArgmin | src/iop_flow/tuning.py:124-138 | the winner is a candidate of minimum score, and the first one of that score |
| Tuning.Row | src/iop_flow/tuning.py:130 | the diameter indices 0..n_d-1 of one length |
| Tuning.RowsFrom | src/iop_flow/tuning.py:128-131 | the grid indices of one order |
| Tuning.Triples | src/iop_flow/tuning.py:125-131 | every candidate has a valid order from the list and indices within the grid |
| Tuning.GridSearchSpec | src/iop_flow/tuning.py:101-140 | success implies positive inputs, ordered bounds and at least one candidate |
| Tuning.GridSearchChoice | src/iop_flow/tuning.py:101-140 | the result is a candidate within the bounds with a listed order, of minimum score among all candidates, and the first such in scan order |
| Tuning.ScanRow | src/iop_flow/tuning.py:130-138 | the innermost loop computes the scan of one row |
| Tuning.ScanOrder | src/iop_flow/tuning.py:128-138 | the middle loop computes the scan of one order |
| Tuning.ScanOrders | src/iop_flow/tuning.py:125-138 | the outer loop, skipping orders below 1, computes the scan of every candidate |
| Tuning.GridSearchRunner | src/iop_flow/tuning.py:101-140 | the method computes the grid-search specification, including its input errors and the failed final assertion |
| Hp.EstimateHpPointModeB | src/iop_flow/hp.py:13-35 | defined exactly when the volumetric flow is, AFR is non-zero and BSFC is positive; HP times BSFC is the fuel flow in lb/h; non-negative, positive exactly at positive RPM and VE |
| Hp.FuelSign | src/iop_flow/hp.py:28-31 | the fuel flow is non-negative, and positive exactly for positive air flow |
| Hp.HpIncreasingInRpm | src/iop_flow/hp.py:13-35 | HP grows strictly with RPM |
| Hp.FlowIncreasing | src/iop_flow/formulas.py:303-313 | the engine's volumetric flow grows strictly with RPM |
| Hp.HpDecreasingInBsfc | src/iop_flow/hp.py:13-35 | a larger BSFC gives strictly less HP |
| Hp.EngineVe | src/iop_flow/hp.py:54 | the engine's VE, or 1.0 when it has none |
| Hp.CurveDensity | src/iop_flow/hp.py:55-58 | bench density from the session's air in bench mode, the fixed density otherwise |
| Hp.HpAt | src/iop_flow/hp.py:61-74 | an error when the point estimate fails; above the cap the value is dropped (NaN), otherwise it is the point estimate |
| Hp.HpList | src/iop_flow/hp.py:61-74 | one value per grid RPM |
| Hp.HpListErrSticks | src/iop_flow/hp.py:61-74 | a failing RPM makes the whole curve fail |
| Hp.HpListEntries | src/iop_flow/hp.py:61-74 | defined exactly when every grid RPM is, and then value k is the value at RPM k |
| Hp.PeakIsFirstMax | src/iop_flow/hp.py:76-81 | the peak is (0, 0) when no finite value is positive; otherwise the first strictly largest finite value and its RPM |
| Hp.CurveSpec | src/iop_flow/hp.py:38-82 | the curve keeps the grid and has one HP entry per RPM |
| Hp.CurveEntries | src/iop_flow/hp.py:38-82 | defined exactly when every point estimate is; entry k is dropped exactly above the cap and is otherwise the point estimate at RPM k |
| Hp.SweepGrid | src/iop_flow/hp.py:61-74 | the loop over the grid computes the HP list |
| Hp.FindPeak | src/iop_flow/hp.py:76-81 | the peak loop computes the peak |
| Hp.EstimateHpCurveModeB | src/iop_flow/hp.py:38-82 | the method computes the curve specification |
| Hp.EstimateHpRotTotal | src/iop_flow/hp.py:85-91 | defined exactly for CFM >= 0 and k > 0; non-negative, zero exactly at zero flow |
| Hp.RotTotalAdditive | src/iop_flow/hp.py:85-91 | the rule of thumb is additive in flow |
| Hp.RotTotalPerCfm | src/iop_flow/hp.py:85-91 | the estimate divided by a positive flow is exactly k HP per CFM |
| Hp.RotTotalScales | src/iop_flow/hp.py:85-91 | scaling the flow by c >= 0 scales the estimate by c |
| Api.EiSection | src/iop_flow/api.py:56-59 | no E/I rows unless both series are non-empty; otherwise the E/I rows of the aligned series |
| Api.FlowLimitSection | src/iop_flow/api.py:61-65 | None without intake rows; otherwise the positive flow-limited RPM with the max strategy, failing when it does |
| Api.CsaSection | src/iop_flow/api.py:67-71 | None without a CSA profile; otherwise the RPM from the average CSA |
| Api.MachSection | src/iop_flow/api.py:73-75 | None unless there is a minimum CSA and intake rows; otherwise one Mach number per intake row |
| Api.RunAll | src/iop_flow/api.py:15-98 | defined exactly when both series and the three engine sections are; the result holds both series, their E/I, each engine section under its own condition, the parameters, meta and mode |
| Api.RunAllWithoutIntake | src/iop_flow/api.py:56-75 | a session without intake points has no E/I, no flow limit and no Mach list |
| Api.RunAllIntakeRows | src/iop_flow/api.py:35-54 | one metrics row per lift point on each side |
| Api.DiffMapOk | src/iop_flow/api.py:140 | the difference map is built exactly when every key's differences are |
| Api.DiffMapContents | src/iop_flow/api.py:140 | the map has exactly the requested keys, each holding the difference list of that key |
| Api.CompareSide | src/iop_flow/api.py:118-141 | both series are those of the two sessions at their own air; aligned_len is the length of their alignment and at most either length; diffs maps every requested key to its difference list |
| Api.RunCompare | src/iop_flow/api.py:101-156 | defined exactly when both sides are; holds both sides, the parameters and both metas |
| Api.SelfDiffZero | src/iop_flow/compare.py:33-65 | comparing rows with themselves gives after = before and a zero change |
| Api.RunCompareSelf | src/iop_flow/api.py:101-156 | a session compared with itself aligns completely and shows no change in any key |
| PyNum.RoundHalfEven | src/iop_flow_gui/wizard/state.py:127 | the nearest integer, within one half, and an integer is its own rounding |
| PyNum.RoundHalfEvenMonotone | src/iop_flow_gui/wizard/state.py:127 | rounding keeps order |
| PyNum.Round3 | src/iop_flow_gui/wizard/state.py:127 | round(x, 3) is within half a thousandth of x |
| PyNum.Round3Monotone | src/iop_flow_gui/wizard/state.py:458 | round(x, 3) keeps order |
| PyNum.Round3Milli | src/iop_flow_gui/wizard/state.py:373 | a multiple of 0.001 is its own rounding |
| PyNum.Round3Idempotent | src/iop_flow_gui/wizard/state.py:458 | rounding twice is rounding once |
| PyNum.Round3NonNegative | src/iop_flow_gui/wizard/state.py:416 | a non-negative value rounds to a non-negative value |
| PyNum.DigitRun | src/iop_flow_gui/wizard/state.py:18 | the longest prefix of decimal digits |
| PyNum.ParseExponent | src/iop_flow_gui/wizard/state.py:18 | an empty exponent part is exponent 0 |
| PyNum.Cut | src/iop_flow_gui/wizard/state.py:18 | the integer and fraction parts of a literal are digit strings |
| PyNum.DigitRunConcat | src/iop_flow_gui/wizard/state.py:18 | the digit run of digits followed by t is those digits and then t's run |
| PyNum.ParseNatural | src/iop_flow_gui/wizard/state.py:18 | float of a digit string is the number it spells |
| PyNum.CutFixedPoint | src/iop_flow_gui/wizard/state.py:18 | a.b is cut into integer digits a and fraction digits b |
| PyNum.ParseFixedPoint | src/iop_flow_gui/wizard/state.py:18 | float("a.b") is a + b / 10^len(b) |
| PyNum.ParseNegative | src/iop_flow_gui/wizard/state.py:18 | a leading minus negates the value and leaves definedness unchanged |
| PyText.LineBreakIsSpace | src/iop_flow_gui/wizard/state.py:387-388 | every line break is whitespace to strip |
| PyText.TrimStartSpec | src/iop_flow_gui/wizard/state.py:388 | lstrip removes exactly the leading whitespace |
| PyText.TrimEndSpec | src/iop_flow_gui/wizard/state.py:388 | rstrip removes exactly the trailing whitespace |
| PyText.StripSpec | src/iop_flow_gui/wizard/state.py:388 | strip is the middle slice between whitespace-only ends, and it starts and ends with non-whitespace |
| PyText.StripKeeps | src/iop_flow_gui/wizard/state.py:393 | a text without whitespace at either end strips to itself |
| PyText.StripIdempotent | src/iop_flow_gui/wizard/state.py:388 | stripping twice is stripping once |
| PyText.StripEmpty | src/iop_flow_gui/wizard/state.py:389 | a line strips to empty exactly when it is all whitespace |
| PyText.SplitWhere | src/iop_flow_gui/wizard/state.py:393 | str.split with a separator always yields at least one piece |
| PyText.SplitPieces | src/iop_flow_gui/wizard/state.py:393 | no piece contains a separator |
| PyText.SplitNoSeparator | src/iop_flow_gui/wizard/state.py:393 | a text without a separator splits into itself |
| PyText.SplitFirstSeparator | src/iop_flow_gui/wizard/state.py:393 | splitting cuts at the first separator |
| PyText.JoinSplit | src/iop_flow_gui/wizard/state.py:393 | joining the pieces with the separator gives back the text |
| PyText.NonEmpty | src/iop_flow_gui/wizard/state.py:396 | only non-empty pieces are kept, each from the input |
| PyText.NonEmptyKeeps | src/iop_flow_gui/wizard/state.py:396 | a list of non-empty pieces is kept whole |
| PyText.FieldsSpec | src/iop_flow_gui/wizard/state.py:395-396 | whitespace split gives non-empty fields without whitespace |
| PyText.Remove | src/iop_flow_gui/wizard/state.py:17 | no removed character is left |
| PyText.ConcatSplit | src/iop_flow_gui/wizard/state.py:393 | the pieces together are the text without its separators |
| PyText.ConcatNonEmpty | src/iop_flow_gui/wizard/state.py:396 | dropping empty pieces loses no text |
| PyText.FieldsKeepText | src/iop_flow_gui/wizard/state.py:395-396 | the fields together are the text without whitespace |
| PyText.Lower | src/iop_flow_gui/wizard/state.py:147 | str.lower on ASCII: upper-case letters become lower-case, everything else is kept |
| WizardParse.CleanChars | src/iop_flow_gui/wizard/state.py:17 | the cleaned text is no longer than the input |
| WizardParse.CleanCharsConcat | src/iop_flow_gui/wizard/state.py:17 | cleaning works character by character |
| WizardParse.CleanCharsSpec | src/iop_flow_gui/wizard/state.py:17 | no space, no-break space or comma is left |
| WizardParse.CleanCharsKeeps | src/iop_flow_gui/wizard/state.py:17 | a text without those characters is unchanged |
| WizardParse.CleanHasNoBorderSpace | src/iop_flow_gui/wizard/state.py:17 | the cleaned text has no whitespace at its ends |
| WizardParse.CleanCommaAsPoint | src/iop_flow_gui/wizard/state.py:17 | a comma is cleaned as a decimal point |
| WizardParse.DecimalComma | src/iop_flow_gui/wizard/state.py:15-18 | "a,b" reads the same as "a.b" |
| WizardParse.CleanDropsSeparator | src/iop_flow_gui/wizard/state.py:17 | a space or no-break space is dropped |
| WizardParse.ThousandsSeparator | src/iop_flow_gui/wizard/state.py:15-18 | a space or no-break space between digits is ignored |
| WizardParse.ParseFloatPlComma | tests/test_wizard_plan_unit.py:40 | "2,50" reads as 2.5 |
| WizardParse.StripPadded | src/iop_flow_gui/wizard/state.py:17 | a text padded with one space on each side strips to itself |
| WizardParse.CleanGroupedDecimal | src/iop_flow_gui/wizard/state.py:17 | "w x,f" cleans to "wx.f" |
| WizardParse.ParseFloatPlThousands | tests/test_wizard_plan_unit.py:41 | " 1 234,5 " reads as 1234.5 |
| WizardParse.CleanThousands | src/iop_flow_gui/wizard/state.py:17 | " 1 234,5 " cleans to "1234.5" |
| WizardParse.DecimalThousands | src/iop_flow_gui/wizard/state.py:18 | "1234.5" reads as 1234.5 |
| WizardParse.ParseFloatPlNatural | src/iop_flow_gui/wizard/state.py:15-18 | a digit string reads as the number it spells |
| WizardParse.ParseFloatPlFixed | src/iop_flow_gui/wizard/state.py:15-18 | "a,b" and "a.b" both read as a + b / 10^len(b) |
| WizardParse.StripAll | src/iop_flow_gui/wizard/state.py:393 | every cell is stripped, in order |
| WizardParse.SemicolonCells | src/iop_flow_gui/wizard/state.py:392-393 | a line with a semicolon keeps its empty cells: one cell per semicolon-separated piece, and the pieces rejoin to the line |
| WizardParse.Take4 | src/iop_flow_gui/wizard/state.py:398-399 | at most the first four cells |
| WizardParse.OptionalCell | src/iop_flow_gui/wizard/state.py:406-407 | a missing column is None |
| WizardParse.RowOfCells | src/iop_flow_gui/wizard/state.py:400-416 | a row is kept only with at least two readable columns and acceptable values; lift is rounded to 3 decimals and q kept |
| WizardParse.ParseLine | src/iop_flow_gui/wizard/state.py:387-416 | blank lines give no row, and every row given is valid |
| WizardParse.RowsOf | src/iop_flow_gui/wizard/state.py:386-417 | at most one row per line |
| WizardParse.RowsOfValid | src/iop_flow_gui/wizard/state.py:384-415 | every row satisfies lift >= 0, q >= 0, dp > 0 if given and swirl >= 0 if given |
| WizardParse.RowsOfConcat | src/iop_flow_gui/wizard/state.py:387 | lines are parsed independently, in order |
| WizardParse.RowsOfOne | src/iop_flow_gui/wizard/state.py:387-416 | one line gives its row or nothing |
| WizardParse.ParseRows | src/iop_flow_gui/wizard/state.py:378-417 | the loop over lines computes the row list specification |
| WizardParse.FieldsThree | src/iop_flow_gui/wizard/state.py:395-396 | three words separated by spaces are three columns |
| WizardParse.SplitFour | src/iop_flow_gui/wizard/state.py:393 | three semicolons split a line into four pieces |
| WizardParse.FixedOneOne | src/iop_flow_gui/wizard/state.py:15-18 | "d,e" and "d.e" read as d + e/10 |
| WizardParse.TwoCommaZero | src/iop_flow_gui/wizard/state.py:15-18 | "2,0" reads as 2.0 |
| WizardParse.ThreePointFive | src/iop_flow_gui/wizard/state.py:15-18 | "3.5" reads as 3.5 |
| WizardParse.RowOfCellsAccepts | src/iop_flow_gui/wizard/state.py:402-416 | readable, acceptable columns always give the row (round(lift, 3), q, dp, swirl) |
| WizardParse.OptionalNumber | src/iop_flow_gui/wizard/state.py:406-407 | a non-blank readable optional column gives its number |
| WizardParse.CellsOfSpaces | src/iop_flow_gui/wizard/state.py:395-396 | "2,0 180 28" splits into its three words |
| WizardParse.RowOfSpaces | src/iop_flow_gui/wizard/state.py:402-416 | those three words give the row (2.0, 180.0, 28.0, None) |
| WizardParse.ParseLineSpaces | tests/test_wizard_measurements_unit.py:10-11 | "2,0 180 28" parses to (2.0, 180.0, 28.0, None) |
| WizardParse.CellsOfSemicolons | src/iop_flow_gui/wizard/state.py:392-393 | "3.5; 220; ; 900" gives the cells "3.5", "220", "" and "900" |
| WizardParse.RowOfSemicolons | src/iop_flow_gui/wizard/state.py:402-416 | those cells give (3.5, 220.0, None, 900.0): the empty cell is a missing dp |
| WizardParse.ParseLineSemicolons | tests/test_wizard_measurements_unit.py:12-13 | "3.5; 220; ; 900" parses to (3.5, 220.0, None, 900.0) |
| WizardGrid.DistinctMultiset | src/iop_flow_gui/wizard/state.py:316-324 | a list is duplicate-free exactly when every value occurs at most once |
| WizardGrid.SortedStrictIffDistinct | src/iop_flow_gui/wizard/state.py:354 | a sorted list is strictly increasing exactly when the input has no duplicates |
| WizardGrid.StepsUpIff | src/iop_flow_gui/wizard/state.py:349-350 | each element below its successor is the same as strictly increasing throughout |
| WizardGrid.DedupMembers | src/iop_flow_gui/wizard/state.py:319-323 | dropping repeats keeps exactly the same values |
| WizardGrid.DedupSortedStrict | src/iop_flow_gui/wizard/state.py:319-323 | dropping repeats of a sorted list gives a strictly increasing list |
| WizardGrid.DedupKeeps | src/iop_flow_gui/wizard/state.py:319-323 | a strictly increasing list has nothing to drop |
| WizardGrid.IncreasingUnique | src/iop_flow_gui/wizard/state.py:316-324 | two strictly increasing lists with the same values are equal |
| WizardGrid.SortedUniqueSpecProps | src/iop_flow_gui/wizard/state.py:316-324 | the result is strictly increasing and has exactly the input's values |
| WizardGrid.SortedUniqueExactly | src/iop_flow_gui/wizard/state.py:316-324 | it is the only such list |
| WizardGrid.SortedUniqueKeeps | src/iop_flow_gui/wizard/state.py:316-324 | a strictly increasing list is its own sorted-unique |
| WizardGrid.SortedUniqueIdempotent | src/iop_flow_gui/wizard/state.py:316-324 | applying it twice is applying it once |
| WizardGrid.SortedUnique | src/iop_flow_gui/wizard/state.py:316-324 | the loop with its seen-set computes the sorted-unique specification |
| WizardGrid.GridBound | src/iop_flow_gui/wizard/state.py:372 | value k of the loop is at most stop + 1e-9 exactly when k is below the count |
| WizardGrid.RawGrid | src/iop_flow_gui/wizard/state.py:372-374 | one rounded value per loop pass |
| WizardGrid.RawGridStep | src/iop_flow_gui/wizard/state.py:372-374 | each pass appends round(v, 3) and advances v by one step |
| WizardGrid.GenGrid | src/iop_flow_gui/wizard/state.py:364-375 | the loop computes the grid specification |
| WizardGrid.RawGridSorted | src/iop_flow_gui/wizard/state.py:372-374 | the values come out in ascending order |
| WizardGrid.GenGridEmpty | src/iop_flow_gui/wizard/state.py:365-366 | the grid is empty exactly when the step is not positive |
| WizardGrid.GenGridRaw | src/iop_flow_gui/wizard/state.py:364-375 | the grid is the loop values with repeats dropped, and the loop values are sorted already |
| WizardGrid.GenGridIncreasing | src/iop_flow_gui/wizard/state.py:364-375 | the grid is strictly increasing |
| WizardGrid.GenGridFirst | src/iop_flow_gui/wizard/state.py:367-373 | the grid starts at the rounded smaller bound |
| WizardGrid.RawGridBound | src/iop_flow_gui/wizard/state.py:372-373 | every loop value lies between the rounded bounds |
| WizardGrid.GenGridBounds | src/iop_flow_gui/wizard/state.py:364-375 | every grid value lies between the rounded smaller bound and the rounded larger bound plus the slack |
| WizardGrid.DedupFirst | src/iop_flow_gui/wizard/state.py:319-323 | the first value is always kept |
| WizardGrid.GenGridSwap | src/iop_flow_gui/wizard/state.py:367-368 | swapped bounds give the same grid |
| WizardGrid.HalfStepCount | tests/test_wizard_plan_unit.py:12-18 | from 1.0 to 5.0 in steps of 0.5 the loop runs 9 times |
| WizardGrid.HalfStepValues | tests/test_wizard_plan_unit.py:12-18 | value k is 1.0 + 0.5 k |
| WizardGrid.HalfStepsIncreasing | tests/test_wizard_plan_unit.py:12-18 | those values are strictly increasing |
| WizardGrid.HalfStepsGrid | tests/test_wizard_plan_unit.py:12-18 | so the grid is the nine loop values |
| WizardGrid.GenGridHalfSteps | tests/test_wizard_plan_unit.py:12-18 | gen_grid(1.0, 5.0, 0.5) has 9 values from 1.0 to 5.0 and contains 3.0 |
| Wizard.Default | src/iop_flow_gui/wizard/state.py:30-77 | a fresh wizard state is well formed: no parts, empty plan and buffers |
| Wizard.ToFloat | src/iop_flow_gui/wizard/state.py:127-128 | float() accepts numbers and rejects null, lists and objects |
| Wizard.RowKey | src/iop_flow_gui/wizard/state.py:127 | a row's key is its lift rounded to 3 decimals, so it is its own rounding |
| Wizard.OptFloat | src/iop_flow_gui/wizard/state.py:131-137 | an optional field fails exactly when it is present, not None and not a number; otherwise it is its float value |
| Wizard.RowEntry | src/iop_flow_gui/wizard/state.py:125-138 | a row is skipped exactly when its lift or flow cannot be read, and otherwise is filed under its rounded lift |
| Wizard.CollectErrSticks | src/iop_flow_gui/wizard/state.py:125-138 | once a row raises, later rows do not change the outcome |
| Wizard.CollectKeys | src/iop_flow_gui/wizard/state.py:124-138 | the collected lifts are distinct, each entry's lift is max(key, 0) and each flow is non-negative |
| Wizard.CollectOrigin | src/iop_flow_gui/wizard/state.py:125-138 | every collected entry comes from some row |
| Wizard.CollectLastWins | src/iop_flow_gui/wizard/state.py:123-133 | for a repeated lift the last row wins |
| Wizard.MakePointsSpec | src/iop_flow_gui/wizard/state.py:140 | building the points succeeds exactly when every entry is a valid LiftPoint, one point per lift in order |
| Wizard.MakePointsErrSticks | src/iop_flow_gui/wizard/state.py:140 | the first invalid entry decides the error |
| Wizard.SortedKeysInMap | src/iop_flow_gui/wizard/state.py:139 | every sorted lift has an entry |
| Wizard.PointsSorted | src/iop_flow_gui/wizard/state.py:122-140 | the points are valid and ordered by lift, strictly so above zero |
| Wizard.PointsFromRows | src/iop_flow_gui/wizard/state.py:122-140 | every point comes from one of the rows |
| Wizard.PointsLastWins | src/iop_flow_gui/wizard/state.py:122-140 | the last row for a lift is among the points |
| Wizard.ToPoints | src/iop_flow_gui/wizard/state.py:122-140 | the loop over the rows computes the points specification |
| Wizard.ModeOf | src/iop_flow_gui/wizard/state.py:147-148 | the mode is "baseline" or "after", and "baseline" when meta has no text mode |
| Wizard.LowerIdempotent | src/iop_flow_gui/wizard/state.py:147 | lower-casing twice is lower-casing once |
| Wizard.ModeIgnoresCase | src/iop_flow_gui/wizard/state.py:147-148 | the mode does not depend on letter case and is "after" exactly for any casing of "after" |
| Wizard.SessionForCompute | src/iop_flow_gui/wizard/state.py:113-158 | a session is built exactly when air, engine and geometry are set and both buffers convert; it carries them, the meta and no CSA |
| Wizard.CsaOf | src/iop_flow_gui/wizard/state.py:210-212 | a CSA profile exists exactly when either value is set, and holds both values |
| Wizard.SessionForRunAll | src/iop_flow_gui/wizard/state.py:175-222 | the run-all session is the compute session plus the CSA profile, and fails in the same cases or on a non-positive CSA |
| Wizard.SessionForComputeValid | src/iop_flow_gui/wizard/state.py:113-158 | a built session satisfies every Session invariant |
| Wizard.SessionForRunAllValid | src/iop_flow_gui/wizard/state.py:175-222 | likewise for the run-all session |
| Wizard.CsaFromUi | src/iop_flow_gui/wizard/state.py:167-172 | a CSA is kept exactly when it is positive, converted from mm² to m² |
| Wizard.PositiveOrNone | src/iop_flow_gui/wizard/state.py:173 | the target velocity is kept exactly when it is positive |
| Wizard.CsaFromUiNeverFails | src/iop_flow_gui/wizard/state.py:160-222 | after set_csa_from_ui the run-all session fails only where the compute session does, and has a CSA exactly when a positive one was entered |
| Wizard.WizardState.constructor | src/iop_flow_gui/wizard/state.py:30-77 | a new state holds the default value |
| Wizard.WizardState.SetCsaFromUi | src/iop_flow_gui/wizard/state.py:160-173 | the three CSA fields are replaced by their converted values and nothing else changes |
| Wizard.WizardState.BuildSessionFromWizardForCompute | src/iop_flow_gui/wizard/state.py:113-158 | returns the compute session of the current state |
| Wizard.WizardState.BuildSessionForRunAll | src/iop_flow_gui/wizard/state.py:175-222 | returns the run-all session of the current state |
| Wizard.StartNeedsText | src/iop_flow_gui/wizard/state.py:288-290 | the start step passes exactly when project name and client are non-blank |
| Wizard.FreshStateNotStarted | src/iop_flow_gui/wizard/state.py:288-290 | a fresh state does not pass it |
| Wizard.BenchStepFollowsAir | src/iop_flow_gui/wizard/state.py:293-298 | the bench step passes exactly when the reference dp is positive and air is set |
| Wizard.EngineStepIsEngineChecks | src/iop_flow_gui/wizard/state.py:301-310 | the engine step passes exactly when the engine is valid and any target rpm is positive |
| Wizard.GeometryStepAddsValves | src/iop_flow_gui/wizard/state.py:327-345 | for a valid geometry the step adds a positive stem and valves larger than the throat |
| Wizard.PlanStepIff | src/iop_flow_gui/wizard/state.py:348-361 | the plan step passes exactly when the intake plan is non-empty, both plans have no repeats and every dp is positive |
| Wizard.PlanOfProps | src/iop_flow_gui/wizard/state.py:458-459 | a plan is strictly increasing, holds exactly the rounded inputs, is empty only for empty input and is already rounded |
| Wizard.PlanOfIdempotent | src/iop_flow_gui/wizard/state.py:458-459 | re-planning a plan changes nothing |
| Wizard.FilterDp | src/iop_flow_gui/wizard/state.py:461-469 | exactly the set dp values of planned lifts on a known side are kept |
| Wizard.ApplyPlanPassesStep | src/iop_flow_gui/wizard/state.py:450-471 | a non-empty intake plan with positive dp values passes the plan step |
| Wizard.ApplyPlanDpMatchesLifts | src/iop_flow_gui/wizard/state.py:460-469 | every kept dp key names a planned lift of its side |
| Wizard.KeepPlannedDp | src/iop_flow_gui/wizard/state.py:461-470 | the loop over the dp map computes the filter |
| Wizard.SetPlanFromUi | src/iop_flow_gui/wizard/state.py:450-471 | the state becomes the planned state and nothing else changes |
| Wizard.MmToM | src/iop_flow_gui/wizard/state.py:441-443 | an optional length is converted from mm to m |
| Wizard.GeometryFromUi | src/iop_flow_gui/wizard/state.py:433-447 | a stored geometry is valid, is the input in metres and has seat angle 45 by default |
| Wizard.GeometryFromUiIff | src/iop_flow_gui/wizard/state.py:433-447 | the geometry is stored exactly when the Geometry checks pass on the input |
| Wizard.StemAtThroatFailsStep | src/iop_flow_gui/wizard/state.py:335-336 | a stem at least as wide as the throat fails the geometry step |
| Wizard.GeometryFromUiStep | src/iop_flow_gui/wizard/state.py:327-345 | a stored geometry passes the step exactly when the stem is positive and the valves exceed the throat |
| Wizard.SetGeometryFromUi | src/iop_flow_gui/wizard/state.py:420-447 | only the geometry field changes, to the converted geometry or None |
| QuarantinedWizard.GeometryStepWithoutSideThroats | contrib/gui_quarantined/iop_flow_gui/wizard/state.py:445-450 | without per-side throats the quarantined geometry step is the main one |
| QuarantinedWizard.GeometryStepQAddsValves | contrib/gui_quarantined/iop_flow_gui/wizard/state.py:437-458 | for a valid geometry the step adds a positive stem and each valve larger than its side's throat |
| QuarantinedWizard.SideThroatAtStemFailsStep | contrib/gui_quarantined/iop_flow_gui/wizard/state.py:446-449 | a stem at least as wide as either side throat fails the step |
| QuarantinedWizard.SetGeometryFromUiQ | contrib/gui_quarantined/iop_flow_gui/wizard/state.py:533-564 | only the geometry changes, to the converted geometry with side throats, or None |
| QuarantinedWizard.NumList | contrib/gui_quarantined/iop_flow_gui/wizard/state.py:80 | a plan list is saved number by number |
| QuarantinedWizard.ObjList | contrib/gui_quarantined/iop_flow_gui/wizard/state.py:80 | a measurement buffer is saved row by row |
| QuarantinedWizard.DpJson | contrib/gui_quarantined/iop_flow_gui/wizard/state.py:80 | the dp map is saved with the same keys and values |
| QuarantinedWizard.ToDictKeys | contrib/gui_quarantined/iop_flow_gui/wizard/state.py:79-105 | the saved dict has exactly the state's field names |
| QuarantinedWizard.TruncTowardZero | contrib/gui_quarantined/iop_flow_gui/wizard/state.py:124 | int() of a float truncates toward zero |
| QuarantinedWizard.ParseIntDigits | contrib/gui_quarantined/iop_flow_gui/wizard/state.py:124 | int() of a digit string is the number it spells |
| QuarantinedWizard.ToInt | contrib/gui_quarantined/iop_flow_gui/wizard/state.py:124 | int() keeps an int and rejects null, lists and objects |
| QuarantinedWizard.AsDict | contrib/gui_quarantined/iop_flow_gui/wizard/state.py:112-161 | dict() and update() of a saved value: an object gives its entries, an empty list or empty text gives no entries; None and numbers are refused |
| QuarantinedWizard.AirOf | contrib/gui_quarantined/iop_flow_gui/wizard/state.py:114-119 | restored air conditions are valid |
| QuarantinedWizard.EngineOf | contrib/gui_quarantined/iop_flow_gui/wizard/state.py:121-126 | a restored engine is valid |
| QuarantinedWizard.GeometryOf | contrib/gui_quarantined/iop_flow_gui/wizard/state.py:128-145 | a restored geometry is valid |
| QuarantinedWizard.Objects | contrib/gui_quarantined/iop_flow_gui/wizard/state.py:147-148 | keeping only the dict rows never adds rows |
| QuarantinedWizard.Measurements | contrib/gui_quarantined/iop_flow_gui/wizard/state.py:147-148 | a list restores its dict rows |
| QuarantinedWizard.FloatItems | contrib/gui_quarantined/iop_flow_gui/wizard/state.py:150-151 | a converted list has one value per item |
| QuarantinedWizard.AllFloatSplit | contrib/gui_quarantined/iop_flow_gui/wizard/state.py:150-151 | every item converts exactly when the prefix does and the last item does |
| QuarantinedWizard.FloatItemsSome | contrib/gui_quarantined/iop_flow_gui/wizard/state.py:150-151 | the list converts exactly when every item does |
| QuarantinedWizard.FloatItemsValues | contrib/gui_quarantined/iop_flow_gui/wizard/state.py:150-151 | each converted value is its item's float |
| QuarantinedWizard.Chars | contrib/gui_quarantined/iop_flow_gui/wizard/state.py:150-151 | iterating a string yields its characters |
| QuarantinedWizard.FloatList | contrib/gui_quarantined/iop_flow_gui/wizard/state.py:150-151 | a list converts item by item, a text character by character, an empty dictionary to no lifts |
| QuarantinedWizard.DpOf | contrib/gui_quarantined/iop_flow_gui/wizard/state.py:152 | a dp dict restores exactly when every value converts, with the same keys; anything else gives an empty map |
| QuarantinedWizard.NumOrNone | contrib/gui_quarantined/iop_flow_gui/wizard/state.py:155-157 | a saved number or None comes back as it was |
| QuarantinedWizard.ObjectsOfObjList | contrib/gui_quarantined/iop_flow_gui/wizard/state.py:80-148 | saved measurement rows restore unchanged |
| QuarantinedWizard.FloatItemsOfNumList | contrib/gui_quarantined/iop_flow_gui/wizard/state.py:80-151 | saved plans restore unchanged |
| QuarantinedWizard.AirOfFields | contrib/gui_quarantined/iop_flow_gui/wizard/state.py:81-119 | saved air conditions restore unchanged |
| QuarantinedWizard.EngineOfFields | contrib/gui_quarantined/iop_flow_gui/wizard/state.py:83-126 | a saved engine restores unchanged |
| QuarantinedWizard.OptFloatOfOptNum | contrib/gui_quarantined/iop_flow_gui/wizard/state.py:136-142 | a saved optional number reads back as itself |
| QuarantinedWizard.GeometryOfFields | contrib/gui_quarantined/iop_flow_gui/wizard/state.py:89-145 | a saved geometry restores unchanged |
| QuarantinedWizard.RequiredGeometryFields | contrib/gui_quarantined/iop_flow_gui/wizard/state.py:89-138 | each required geometry field reads back as its value |
| QuarantinedWizard.OptionalGeometryFields | contrib/gui_quarantined/iop_flow_gui/wizard/state.py:89-142 | each optional geometry field reads back as its value |
| QuarantinedWizard.DpOfJson | contrib/gui_quarantined/iop_flow_gui/wizard/state.py:80-152 | a saved dp map restores unchanged |
| QuarantinedWizard.SavedMeta | contrib/gui_quarantined/iop_flow_gui/wizard/state.py:80-112 | the saved meta is the state's meta |
| QuarantinedWizard.SavedAir | contrib/gui_quarantined/iop_flow_gui/wizard/state.py:81-82 | air is saved as its three fields, or null |
| QuarantinedWizard.SavedEngine | contrib/gui_quarantined/iop_flow_gui/wizard/state.py:83-88 | the engine is saved as its three fields, or null |
| QuarantinedWizard.SavedGeometry | contrib/gui_quarantined/iop_flow_gui/wizard/state.py:89-102 | the geometry is saved as its eleven fields, or null |
| QuarantinedWizard.SavedMeasureIntake | contrib/gui_quarantined/iop_flow_gui/wizard/state.py:80 | the intake measurements are saved as a list of rows |
| QuarantinedWizard.SavedMeasureExhaust | contrib/gui_quarantined/iop_flow_gui/wizard/state.py:80 | likewise for exhaust |
| QuarantinedWizard.SavedLiftsIntake | contrib/gui_quarantined/iop_flow_gui/wizard/state.py:80 | the intake plan is saved as a list of numbers |
| QuarantinedWizard.SavedLiftsExhaust | contrib/gui_quarantined/iop_flow_gui/wizard/state.py:80 | likewise for exhaust |
| QuarantinedWizard.SavedSwirl | contrib/gui_quarantined/iop_flow_gui/wizard/state.py:80 | the swirl flag is saved as a boolean |
| QuarantinedWizard.SavedCsaMin | contrib/gui_quarantined/iop_flow_gui/wizard/state.py:80 | the minimum CSA is saved as a number or null |
| QuarantinedWizard.SavedCsaAvg | contrib/gui_quarantined/iop_flow_gui/wizard/state.py:80 | likewise the mean CSA |
| QuarantinedWizard.SavedVTarget | contrib/gui_quarantined/iop_flow_gui/wizard/state.py:80 | likewise the target velocity |
| QuarantinedWizard.SavedResults | contrib/gui_quarantined/iop_flow_gui/wizard/state.py:80 | the results dict is saved as an object |
| QuarantinedWizard.SavedTuning | contrib/gui_quarantined/iop_flow_gui/wizard/state.py:103-104 | the tuning dict is saved as an object |
| QuarantinedWizard.NumOrNoneOfOptNum | contrib/gui_quarantined/iop_flow_gui/wizard/state.py:155-157 | an optional number saved and restored is unchanged |
| QuarantinedWizard.LoadMetaSaved | contrib/gui_quarantined/iop_flow_gui/wizard/state.py:112 | restoring merges the saved meta over the current one |
| QuarantinedWizard.LoadPartsSaved | contrib/gui_quarantined/iop_flow_gui/wizard/state.py:113-145 | on a fresh state air, engine and geometry restore unchanged |
| QuarantinedWizard.LoadMeasuresSaved | contrib/gui_quarantined/iop_flow_gui/wizard/state.py:147-148 | both measurement buffers restore unchanged |
| QuarantinedWizard.LoadLiftsSaved | contrib/gui_quarantined/iop_flow_gui/wizard/state.py:150-151 | both plans restore unchanged |
| QuarantinedWizard.LoadDpAndCsaSaved | contrib/gui_quarantined/iop_flow_gui/wizard/state.py:152-157 | dp map, swirl flag and CSA fields restore unchanged |
| QuarantinedWizard.LoadDictsSaved | contrib/gui_quarantined/iop_flow_gui/wizard/state.py:159-161 | results and tuning restore unchanged |
| QuarantinedWizard.FromDpAndCsaSaved | contrib/gui_quarantined/iop_flow_gui/wizard/state.py:152-161 | the tail of from_dict restores every field it reads |
| QuarantinedWizard.FromMeasureIntakeSaved | contrib/gui_quarantined/iop_flow_gui/wizard/state.py:147-161 | from the measurements on, every field restores unchanged |
| QuarantinedWizard.FromDictToDict | contrib/gui_quarantined/iop_flow_gui/wizard/state.py:79-165 | from_dict(to_dict(s)) gives back s, except that the meta is merged over the default meta and the five fields from_dict does not read (reference and measured dp, target rpm, and the intake and exhaust example points) return to their defaults |
| QuarantinedWizard.FromDictTuningOnly | contrib/gui_quarantined/iop_flow_gui/wizard/state.py:108-165 | a dict holding only tuning restores a default state with that tuning |
| QuarantinedWizard.FromDictKeepsPartial | contrib/gui_quarantined/iop_flow_gui/wizard/state.py:147-164 | when the measurements raise, the fields read before stay and the rest keep their defaults |
| QuarantinedWizard.FromDict | contrib/gui_quarantined/iop_flow_gui/wizard/state.py:107-165 | returns a new state holding the restored value |
| QuarantinedWizard.LoadPartsInto | contrib/gui_quarantined/iop_flow_gui/wizard/state.py:113-145 | fills air, engine and geometry in place |
| QuarantinedWizard.StoreParts | contrib/gui_quarantined/iop_flow_gui/wizard/state.py:117-145 | stores the three parts and nothing else |
| QuarantinedWizard.LoadLists | contrib/gui_quarantined/iop_flow_gui/wizard/state.py:147-161 | fills the measurement buffers and everything after them in place |
| QuarantinedWizard.LoadLifts | contrib/gui_quarantined/iop_flow_gui/wizard/state.py:150-161 | fills the plans and everything after them in place |
| QuarantinedWizard.LoadRest | contrib/gui_quarantined/iop_flow_gui/wizard/state.py:152-161 | fills dp, swirl, CSA, results and tuning in place |
| QuarantinedWizard.StoreDpAndCsa | contrib/gui_quarantined/iop_flow_gui/wizard/state.py:152-157 | stores those five fields and nothing else |
| QuarantinedWizard.LoadSections | contrib/gui_quarantined/iop_flow_gui/wizard/state.py:159-161 | fills results and tuning in place |

The contrib copy of `state.py` repeats the src code for `to_points` and the two session
builders (contrib/gui_quarantined/iop_flow_gui/wizard/state.py:177-286), `set_csa_from_ui`
(224-237), the validators other than geometry, `_sorted_unique`, `gen_grid` and `parse_rows`
(398-530) and `set_plan_from_ui` (567-588). Those are modelled once, by the `Wizard`,
`WizardGrid` and `WizardParse` members above. `QuarantinedWizard` adds what differs: the per-side
throats, and `to_dict`/`from_dict`.

## Left out

- The Qt and matplotlib front end, the step pages and every other UI file: they read widget tables and draw plots.
- Files, settings and command-line entry points (`io_json.py`, `preferences.py`, `cli.py`, resource loading): they are I/O.
- `apply_defaults_preset` in both state files: it fills in fixed demonstration values, and the contrib one reads them from a preset file on disk.
- `lift_m_to_mm`, `q_m3s_to_cfm`, `plan_intake`, `plan_exhaust` and `dp_for_point` (src/iop_flow_gui/wizard/state.py:22-27,104-111): one-line list maps and lookups that none of the modelled operations call.
- `WizardState.to_dict` of the src copy (src/iop_flow_gui/wizard/state.py:79-101): only its contrib twin, which also saves the per-side throats, is modelled. The src copy has no `from_dict`.
- `hp_from_cfm`, `hp_from_mass_air`, `runner_length_intake_quarterwave`, `primary_length_exhaust_quarterwave`, `plenum_volume_hint_from_displacement`, the exhaust quarter-wave helpers, `collector_csa_from_q` and the `sweep_*_L` helpers: callers name them, but they are not part of this model because their code is not in the repository's modules.
- The self-check block at the end of `formulas.py` (374-389) and the concrete numeric ranges the tests check (Cd between 0.8 and 1.25, Mach below 1 and so on): they need actual values of sqrt, exp, pi and pow.
- Floating point: every float is an exact real. Rounding error, overflow, infinities and signed zero are not modelled. `round(x, 3)` rounds the exact real half to even at 0.001. Python rounds the binary double, so results can differ at exact ties.
- NaN: the HP curve's blanked entries above the RPM cap are `None`.
- `sqrt`, `exp` and `pow` are fields of a `RealMath.MathLib` argument. The only laws assumed of them are the ones in `RealMath.Lawful`: sqrt is positive on positives and squares back on non-negatives, exp is positive, and pow of a positive base is positive.
- Formulas.AreaEffSmoothmin: does not state that the blend is at most min(A_curtain, A_throat). That needs monotonicity laws of pow that `Lawful` does not assume.
- EngineLink.RpmForSeriesScales: states that scaling every flow by c > 1 raises the RPM strictly, not that it multiplies the RPM by exactly c.
- `float(text)` is modelled for decimal literals: optional sign, digits with an optional point, optional exponent. Python's `inf`, `nan`, underscores between digits and non-ASCII digits are not accepted by the model.
- QuarantinedWizard.ToInt: `int(text)` accepts surrounding whitespace, an optional sign and ASCII digits. Underscores between digits (`int("1_0")` is 10) and non-ASCII digits, which Python accepts, are refused, so such a saved cylinder count restores `engine = None`.
- `str.lower()` lowers ASCII letters only.
- `parse_rows` splits lines at every line-break character. Python's `splitlines` treats `\r\n` as one break and drops a final empty line. The difference is only extra empty lines, which `parse_rows` skips, so the rows are the same.
- `gen_grid` adds the step by repeated float addition. The model computes value k as start + k·step exactly, with the same 1e-9 slack on the stop bound.
- Typed records replace the string-keyed point rows of `compute_series`, `compare` and `engine_link`. A `KeyError` from a missing key therefore cannot arise, except for the field names `Compare.FieldJson` looks up, where it is an `Err`.
- `ZeroDivisionError` and math domain errors are `Err` results, like `ValueError`.
- The quarantined `from_dict` differs from Python in a few ways:
  - `meta`, `results` and `tuning` must be JSON objects, empty lists or empty texts. Python's `dict.update` and `dict()` also accept a non-empty list of pairs (see QuarantinedWizard.AsDict below).
  - A non-numeric CSA or target-velocity value reads back as `None`, where Python stores it unchanged.
  - The `(side, lift)` dp keys are kept as pairs beside the string-keyed fields.
  - Dictionary key order is not modelled.
- Schemas: `cls(**d)` stores whatever value a keyword argument holds once the `__post_init__` checks pass. The typed records hold only values of the declared kind, so a few values Python keeps are refused instead:
  - Schemas.EngineFromDict: a cylinder count that is a float with a fractional part (such as 4.5) is an error; Python stores it. A whole float such as 4.0 is read as the int 4, so `to_dict` writes it back as 4.
  - Schemas.GeometryFromDict: a `seat_angle_deg` that is not a number (text, a list) is an error; Python stores it unchecked because no check reads it.
  - Schemas.SessionFromDict: the mode is kept as any JSON value, as Python keeps it; the wizard builds sessions only with the text "baseline" or "after".
- QuarantinedWizard.FloatList: a non-empty dictionary of lifts is refused. Python iterates its keys and converts each one, in key order, which is not modelled.
- QuarantinedWizard.AsDict: the list-of-pairs form of `dict()` and `update()` is refused for `meta`, `results` and `tuning` alike; only empty lists and texts give no entries.
- Tuning.RunnerSpec: the `note` text of a candidate (src/iop_flow/tuning.py:17,136), which formats v_mean and the RPM estimate for display, is not modelled.
