# DeepConf-Behavior fusion core, modelled in Dafny

This project models the integration core of the DeepConf-Behavior analyzer.
The analyzer runs two analyses of one request. The first is a multi-path
reasoning result that carries an average confidence. The second is a
behavioral-trajectory result: a mapping that carries `confidence_score` and,
optionally, `recommendation_quality`. The core fuses the two into an
`IntegratedAnalysisResult` with three scores:

- an integrated confidence;
- an analysis consistency, which measures agreement;
- a recommendation score.

The model is sequential and purely functional. Scores are Dafny `real`s.
Python values are a small `Value` datatype: `Num` stands for both `int` and
`float`, and `bool` counts as a number, as it does in Python arithmetic.

Modules, one per file:

- `Outcomes` (outcomes.dfy): `Option` for Python's `Optional`. `Outcome` says
  whether a call returned a value or raised.
- `Values` (values.dfy): Python values and mappings. The reasoning result is
  seen only through its attributes.
- `Fusion` (fusion.dfy): `_integrate_results`. The weights are held as
  sequences. `WeightedSum` is the one weighted-combination function used by
  both the integrated confidence and the recommendation score. The
  convexity of the weights together with `WeightedSumBounded` is what keeps
  the integrated confidence in [0,1].
- `Analyzer` (analyzer.dfy): the analyzer state, the two collaborator guards,
  the choice of multimodal sources, the `processing_time` key,
  `_serialize_deepconf_result` and `get_status`.
- `Orchestrator` (orchestrator.dfy): `integrated_analysis` once both branches
  have settled. It covers turning an exception into `None`, fusion, assembly
  and the zeroed fallback record. The record has an extra `degraded` flag
  that the Python dataclass does not have. The flag marks the record built
  by the exception handler.

Three behaviours of deepconf_with_behavior.py worth knowing:

- **The fusion is not total.** It falls back to 0.5 for a missing input or a
  missing field. But a field that is present and not a number makes
  `abs(d - b)` (line 331) or `0.4 * q` (line 345) raise `TypeError`. A
  `None` value or a string are examples. The outer handler then returns the
  zeroed record. In this model that is the only way the assembly can raise.
  So the record is degraded exactly when a field the fusion reads is not a
  number (`Fusion.Fuse`, `Orchestrator.IntegratedAnalysis`).
- **Total collaborator failure is not zeroed.** Suppose both branches fail
  or both collaborators are unavailable. The code still fuses the two 0.5
  fallbacks and returns consistency 1.0, integrated confidence 0.65 and
  recommendation 0.65. It does not return three zeros
  (`Orchestrator.BothBranchesMissing`, `Orchestrator.AnalyzeWithCollaborators`).
- **Zero scores do not identify the fallback record.** With inputs in [0,1]
  the integrated confidence is at least 0.3, so three zeros mean the
  fallback record (`Orchestrator.ZeroScoresMeanDegraded`). With inputs
  outside [0,1], a normal record can also have three zero scores
  (`Orchestrator.ZeroScoresWithoutDegradation`).

Clocks are parameters. `timestamp` is the string captured once before
dispatch. `elapsed` is the clock difference read when the record is built.
`behaviorElapsed` is the duration the behavior branch measures. The
collaborators are parameters too:

- `generate` is the outcome of the reasoning engine's `generate`.
- `analyzeTrajectory` is a function from a profile and a list of sources to
  the trajectory analyzer's outcome. A function is used so that the model
  shows which sources the analyzer receives.

## Model

| member | source | states |
|---|---|---|
| `Fusion.WeightedSumBounded` | deepconf_with_behavior.py:333-338 | a weighted combination with non-negative weights over inputs in [0,1] lies between 0 and the total weight |
| `Fusion.WeightsAreConvex` | deepconf_with_behavior.py:328-346 | the weights 0.4/0.3/0.3 and 0.6/0.4 are non-negative and each set sums to 1 |
| `Fusion.Consistency` | deepconf_with_behavior.py:330-331 | agreement is at most 1, equals 1 exactly when the two confidences are equal, and stays in [0,1] for inputs in [0,1] |
| `Fusion.ConsistencySymmetric` | deepconf_with_behavior.py:331 | agreement does not depend on which branch reported which confidence |
| `Fusion.Integrated` | deepconf_with_behavior.py:333-338 | the integrated confidence is the 0.4/0.3/0.3 convex combination of the two confidences and their consistency, so it lies in [0,1] whenever both confidences do |
| `Fusion.IntegratedIsWeightedFormula` | deepconf_with_behavior.py:328-338 | the integrated confidence equals 0.4·d + 0.3·b + 0.3·consistency; in closed form 0.7·d + 0.3 when d ≤ b, else 0.1·d + 0.6·b + 0.3; at least 0.3 for non-negative confidences |
| `Fusion.IntegratedMonotone` | deepconf_with_behavior.py:333-338 | the integrated confidence never drops when either branch becomes more confident |
| `Fusion.Recommendation` | deepconf_with_behavior.py:340-346 | without a quality the score is the integrated confidence; with a quality it is their convex blend, a unit value when both are |
| `Fusion.RecommendationIsBlend` | deepconf_with_behavior.py:340-346 | with quality q the score is 0.6·i + 0.4·q, which lies between i and q |
| `Fusion.FuseScores` | deepconf_with_behavior.py:327-352 | consistency is 1 − abs(d − b); the integrated score weights d, b and consistency by 0.4, 0.3, 0.3; for unit inputs all three scores are unit values and the integrated score is at least 0.3; equal confidences v give consistency 1 and 0.7·v + 0.3 |
| `Fusion.Fuse` | deepconf_with_behavior.py:304-352 | raises exactly when a field it reads is present but not a number; with all three fields missing it does not raise and gives 0.65, 1.0, 0.65; confidences in [0,1] give a consistency in [0,1] and an integrated score in [0.3, 1]; with every field read in [0,1] it does not raise and all three scores are in [0,1] |
| `Fusion.MissingReasoningIsNeutral` | deepconf_with_behavior.py:318-322 | an absent reasoning result, or one without `average_confidence`, fuses the same as a reported 0.5 |
| `Fusion.MissingBehaviorIsNeutral` | deepconf_with_behavior.py:319-325 | an absent behavior mapping, or one without `confidence_score`, fuses the same as one reporting 0.5 |
| `Fusion.BothMissing` | deepconf_with_behavior.py:317-351 | with both inputs absent the fusion does not raise and gives 0.65, 1.0, 0.65 |
| `Fusion.WorkedExample` | deepconf_with_behavior.py:317-346 | no reasoning, confidence 0.8, quality 0.9 give consistency 0.7, integrated 0.65, recommendation 0.75 |
| `Analyzer.RunDeepconf` | deepconf_with_behavior.py:164-189 | with no runner the result is `None`; otherwise it is the result `generate` returned, or `None` if `generate` raised |
| `Analyzer.SelectSources` | deepconf_with_behavior.py:211-212 | the caller's sources are used unless they are missing or empty; then the configured sources; then `['text']`; the result is empty only when the configured list is empty |
| `Analyzer.AnalyzeBehavior` | deepconf_with_behavior.py:191-228 | with no analyzer the result is `None`; otherwise the returned mapping is passed on with only `processing_time` added; an exception or a `None` gives `None` |
| `Analyzer.SerializeDeepconfResult` | deepconf_with_behavior.py:354-376 | `None` stays `None`; a result becomes a mapping with exactly the four keys, each holding the attribute or its default ('', 0.0, [], {}) |
| `Analyzer.SerializeIdempotent` | deepconf_with_behavior.py:364-373 | projecting a projection gives it back unchanged |
| `Analyzer.SerializeKeepsPresentAttributes` | deepconf_with_behavior.py:367-373 | a result with all four attributes is projected to exactly those attribute values |
| `Analyzer.GetStatus` | deepconf_with_behavior.py:378-391 | each availability flag is true exactly when its handle exists; backend and model are echoed; the version is '1.0.0' |
| `Analyzer.StatusPredictsGuards` | deepconf_with_behavior.py:175-206 | a collaborator the status reports as unavailable always yields `None`; one reported as available passes a returned result on |
| `Orchestrator.BranchResult` | deepconf_with_behavior.py:260-267 | a branch that raised contributes `None`; a branch that returned contributes exactly its value |
| `Orchestrator.IntegratedAnalysis` | deepconf_with_behavior.py:245-302 | keeps the timestamp, model info and elapsed time on both paths; degraded exactly when the fusion raises; a degraded record has three zero scores and no component results; otherwise the record carries the fused scores, the projected reasoning result and the unchanged behavior mapping |
| `Orchestrator.ExceptionIsAbsence` | deepconf_with_behavior.py:260-267 | a branch that raised gives the same record as a branch that returned `None` |
| `Orchestrator.BothBranchesMissing` | deepconf_with_behavior.py:261-287 | with nothing from either branch the record is not degraded: scores 0.65, 1.0, 0.65 and no component results |
| `Orchestrator.ReasoningProjectionIgnoresBehavior` | deepconf_with_behavior.py:256-281 | in a record that is not degraded, the reasoning projection does not depend on how the behavior branch settled |
| `Orchestrator.BehaviorPassthroughIgnoresReasoning` | deepconf_with_behavior.py:256-281 | in a record that is not degraded, the behavior mapping does not depend on how the reasoning branch settled |
| `Orchestrator.ReasoningFailureSparesBehavior` | deepconf_with_behavior.py:256-281 | when the reasoning branch raises, the behavior mapping still arrives unchanged and is fused against a reasoning confidence of 0.5 |
| `Orchestrator.BehaviorFailureSparesReasoning` | deepconf_with_behavior.py:256-281 | when the behavior branch raises, the reasoning result is still projected, and all three scores equal the fusion against a behavior mapping reporting 0.5: integrated confidence and consistency of d against 0.5, and no recommendation blend |
| `Orchestrator.WorkedExampleEndToEnd` | deepconf_with_behavior.py:261-287 | reasoning raises and behavior reports 0.8 and 0.9: the record scores 0.65, 0.7, 0.75 and carries the behavior mapping |
| `Orchestrator.ZeroScoresMeanDegraded` | deepconf_with_behavior.py:292-302 | with confidences in [0,1], a record that is not degraded has an integrated confidence of at least 0.3, so a zero integrated confidence means the fallback record |
| `Orchestrator.ZeroScoresWithoutDegradation` | deepconf_with_behavior.py:292-302 | confidences 3/7 and −4/7 give a record that is not degraded but has three zero scores |
| `Orchestrator.AnalyzeWithCollaborators` | deepconf_with_behavior.py:250-270 | with both collaborators unavailable the call still returns 0.65, 1.0, 0.65 and is not degraded; a behavior mapping in the record always carries the branch's own `processing_time` |

## Left out

- Concurrency: `asyncio.gather` and `asyncio.to_thread` (lines 252-258) are not modelled. The two settled branch outcomes are inputs. Latency bounds need a model of time and scheduling.
- Clocks: `time.time` and `time.strftime` are not modelled. `timestamp`, `elapsed` and `behaviorElapsed` are opaque inputs. The normal path and the fallback path each read the clock once when the record is built, and the model uses one `elapsed` value for both.
- Logging calls are not modelled, because they have no effect on results.
- `to_dict` and `to_json` (lines 95-101) are not modelled. They are library serialization (`asdict`, `json.dumps`). The transport round-trip property therefore has no member.
- The `__main__` demo (lines 412-453) is not modelled, because it is console output and file I/O.
- IEEE floating point is not modelled. Scores are exact reals. NaN, infinities, rounding and the `OverflowError` of converting a huge `int` to `float` are outside the model.
- Construction (`__init__`, lines 113-162) and `create_analyzer` (line 395) are not modelled. The model takes the resulting state as given: the two handles, the backend and model names, and the configured `multimodal_sources` entry. That entry is assumed to be a list of strings.
- Truthiness: a present reasoning result and a present collaborator handle are taken to be truthy. This holds for plain objects that do not define `__bool__` or `__len__`. So `not x` and `x is None` agree in this model.
- The reasoning engine (`generate`, its keyword arguments and the prompt) and the trajectory analyzer are outside this model. They appear only as the outcomes they settle to. `deepconf_complete` and `extensions.behavior_analysis` are not part of this model.
- `Analyzer.SerializeDeepconfResult`: does not model the `{'error': ...}` branch (lines 374-376). `getattr` with a default cannot raise on the plain attribute values modelled here.
- Cancellation is not modelled. A branch settles here either by returning or by raising an `Exception`. With `return_exceptions=True` (lines 256-258), a cancelled branch would instead deliver a `CancelledError` instance. That class derives from `BaseException`, so the `isinstance(..., Exception)` tests at lines 261 and 265 would not replace it with `None`. A cancelled reasoning branch would reach the fusion as a truthy object without attributes. It would be fused as a 0.5 confidence and projected to the four defaults, so the record would carry a reasoning result that does not exist. A cancelled behavior branch would make the membership test at line 324 raise `TypeError`, so the handler at line 292 would zero the whole record, including a valid reasoning result. Cancelling the call itself propagates past `except Exception` at line 292, so no record is returned.
- cli.py and benchmark.py are not modelled. They are argument parsing, report and file output, and a statistics harness. They also call `create_integrated_analyzer` and `generate_integrated_report`, and read `deepconf_confidence` and `behavior_paths`. None of these exist in the modelled core.
