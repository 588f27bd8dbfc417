# openHAB Android location service: provider criteria

This project models the part of the openHAB Android client's background location service
that carries logic: turning the quality of the service's location request into the
platform `Criteria` object that is handed to the platform's best-provider lookup.

- `PlatformCriteria` (criteria.dfy) models the platform `Criteria` object. It is a class
  with eight mutable fields: overall accuracy, horizontal accuracy, vertical accuracy,
  power requirement, and the altitude, bearing, speed and cost flags. The platform's numeric
  constants are not visible, so every setting is a symbolic enumeration. Each enumeration
  includes NO_REQUIREMENT, which is what a new object holds.
- `Location` (location_service.dfy) models the service:
  - `Quality` is the request quality: low power, balanced, high accuracy, or any other value.
  - `ProviderCriteria` is the pure table from a quality to the resulting field values.
  - `BuildCriteria` allocates a `Criteria` and assigns its fields in the same order as
    the source. It is proved to produce exactly `ProviderCriteria(quality)`.
  - `LocationService` has the request quality as an immutable constant fixed at balanced,
    `GetProviderCriteria`, and `Start`. `Start` returns the criteria and the enabled-only flag
    that it passes to the platform lookup.

Facts about the code that the model keeps:
- Horizontal and vertical accuracy are set to the LOW/MEDIUM/HIGH accuracy levels.
- Overall accuracy is set to COARSE for low power and to FINE for balanced and high accuracy.
- The dispatch on the quality has no fallback branch. Any other quality value leaves the four
  enumerated settings as a new `Criteria` has them: no requirement on accuracy or power.

## Model

| member | source | states |
|---|---|---|
| `PlatformCriteria.Criteria.constructor` | mobile/src/main/java/org/openhab/habdroid/core/location/LocationService.kt:48 | A new criteria object has no requirement on overall, horizontal or vertical accuracy or on power. It promises nothing about the four flags. |
| `Location.ProviderCriteria` | mobile/src/main/java/org/openhab/habdroid/core/location/LocationService.kt:47-77 | For every quality, altitude, bearing and speed are not required and cost is not allowed. A recognised quality asks for equal horizontal and vertical accuracy. A quality is recognised exactly when a horizontal accuracy is required, and exactly when an overall accuracy is required. Any other quality leaves no requirement on overall, horizontal or vertical accuracy or on power. |
| `Location.BuildCriteria` | mobile/src/main/java/org/openhab/habdroid/core/location/LocationService.kt:47-77 | The field-by-field assignments produce a freshly allocated object whose fields are exactly the table row for the quality. This holds for an unrecognised quality too. |
| `Location.LocationService.GetProviderCriteria` | mobile/src/main/java/org/openhab/habdroid/core/location/LocationService.kt:40-77 | Each call returns a freshly allocated object whose fields are the row for the service's fixed request quality. So two calls give distinct objects with equal values. |
| `Location.LocationService.Start` | mobile/src/main/java/org/openhab/habdroid/core/location/LocationService.kt:113-116 | The criteria handed to the best-provider lookup are always the balanced row: FINE, MEDIUM/MEDIUM, POWER_MEDIUM, and all four flags false. Only enabled providers are asked for. |
| `Location.LowPowerCriteria` | mobile/src/main/java/org/openhab/habdroid/core/location/LocationService.kt:51-56 | Low power gives COARSE accuracy, LOW horizontal and vertical accuracy, and POWER_LOW. |
| `Location.BalancedCriteria` | mobile/src/main/java/org/openhab/habdroid/core/location/LocationService.kt:57-62 | Balanced gives FINE accuracy, MEDIUM horizontal and vertical accuracy, and POWER_MEDIUM. |
| `Location.HighAccuracyCriteria` | mobile/src/main/java/org/openhab/habdroid/core/location/LocationService.kt:63-68 | High accuracy gives FINE accuracy, HIGH horizontal and vertical accuracy, and NO_REQUIREMENT for power. |
| `Location.TradeoffOrdering` | mobile/src/main/java/org/openhab/habdroid/core/location/LocationService.kt:50-68 | Between any two recognised qualities, one asks for strictly higher horizontal accuracy exactly when it has a strictly looser power requirement. Overall accuracy is COARSE exactly for low power. |
| `Location.HorizontalLevelsCovered` | mobile/src/main/java/org/openhab/habdroid/core/location/LocationService.kt:50-68 | Each named horizontal accuracy level (LOW, MEDIUM, HIGH) is produced by exactly one recognised quality. No recognised quality leaves horizontal accuracy at NO_REQUIREMENT. |
| `Location.PowerLevelsCovered` | mobile/src/main/java/org/openhab/habdroid/core/location/LocationService.kt:50-68 | Each power requirement (LOW, MEDIUM, NO_REQUIREMENT) is produced by exactly one recognised quality. Every unrecognised quality gets NO_REQUIREMENT, the same power requirement as high accuracy. |

## Left out

- The platform's provider lookup (`getBestProvider`, lines 114-115) is a foreign call whose ranking is not visible. `Start` stops at the arguments it passes, and the lookup's result is discarded in the source anyway.
- The numeric values of the platform's accuracy, power and quality constants are not modelled.
- The platform `Criteria` class couples overall and horizontal accuracy. Setting FINE overall accuracy sets horizontal accuracy to HIGH, and the object reports FINE only when horizontal accuracy is HIGH. The model stores each field independently. Its `accuracy` field records what the service assigned, not what the platform object reports.
- Location.LocationService.Start: the balanced object reports COARSE on the platform, because MEDIUM is assigned to horizontal accuracy after FINE. `Start` states the FINE that was assigned, not that report.
- Location.TradeoffOrdering: "COARSE exactly for low power" is about the overall-accuracy assignments. It is not about what the returned platform object reports.
- Location.BalancedCriteria: the FINE it states is the assigned value. The platform object reports COARSE for this row.
- `PlatformCriteria.Criteria.constructor`: the platform's fresh values for the four flags are not visible, so the constructor promises nothing about them.
- `Location.Quality`: `Other(code)` stands for a value equal to none of the three named constants. The `code` is documentation only: nothing ties it to the constants' values, and the integer comparison done by the dispatch is not modelled.
- The `LocationRequest` builder settings other than the quality (lines 40-45): the interval given to the builder, update delay, maximum updates and duration are library configuration with no behaviour in this file.
- `onCreate` (lines 79-99): notification building and `startForeground` are operating-system foreground-service plumbing.
- `onStartCommand`, `onDestroy`, `onBind` and `stop` (lines 101-120): these are empty or placeholder bodies that return constants. There is no start/stop state machine, subscription or update forwarding in the code to model.
- Concurrency: the source has no locks, callbacks or update delivery.
