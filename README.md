# Grain storage monitor: sensor core in Dafny

This project models the core of a grain-storage monitoring web app. The app
reads temperature and humidity from a Bluetooth Low Energy environmental
sensor. It shows each metric on a dashboard as safe, warning or danger, and
it raises deduplicated alerts when a reading crosses a threshold or when the
spoilage-risk score becomes critical. Its interface text comes in English or
Hindi.

The model has five modules, one file each:

- `SensorNotifications` (`sensor_notifications.dfy`) covers the
  spoilage-risk score and the alert check of the notification hook.
  - The score is the sum of four bucketed contributions, clamped at 100.
  - An alert's key is its metric plus a bucket. The bucket is the floor of
    the reading, `toFixed(2)` for gas, `toFixed(1)` for vibration, and the
    score itself for spoilage.
  - The class `AlertDeduplicator` holds the hook's `notified` set and its
    pending 30-second expiry callbacks. Each callback holds the keys that its
    own check emitted. `Check` is one run of the effect. `Fire(i)` is
    pending callback `i` running.
- `BluetoothSensor` (`bluetooth_sensor.dfy`) covers the Bluetooth hook.
  - Temperature is decoded as a signed 16-bit little-endian value in
    hundredths, humidity as an unsigned one.
  - `Merge` is `updateSensorData`'s merge of a partial update into the
    snapshot.
  - The class `SensorConnection` models `scanAndConnect`, `disconnect`, the
    `gattserverdisconnected` listener and the value listeners. Every Web
    Bluetooth call is replaced by its outcome, a `ScanOutcome` value.
- `Dashboard` (`dashboard.dfy`) covers the four status functions of the
  dashboard page, and how their danger bands relate to the alert thresholds.
- `Language` (`language.dfy`) covers the two translation tables, the `t`
  lookup with its fall-back to the key, and the provider's initial language
  `en`.
- `Wrappers` (`wrappers.dfy`) defines `Option`, which stands for
  JavaScript's absent or `null` values.

Readings are Dafny `real`s. For non-negative x, `toFixed(n)` is the integer
nearest to x·10ⁿ, with ties going to the larger one; the hook applies it
only to gas and vibration readings above their thresholds. The clock
(`new Date().toISOString()`) is a parameter `now`.

Some behaviour of the code worth stating up front:
- Connecting again while connected is not a no-op. It replaces the stored
  device and adds one more disconnect listener.
- Alerts carry no severity level.
- The disconnect action never closes the GATT link. Its value listeners stay
  registered, so a later notification re-creates a snapshot
  (`ReadingAfterDisconnect`).
- The listener of an earlier device clears whichever device is stored when
  that earlier device drops (`StaleWatcherClearsNewDevice`).

## Model

| member | source | states |
|---|---|---|
| SensorNotifications.TemperatureRisk | src/hooks/useSensorNotifications.ts:31-33 | the temperature contribution is 0, 10, 20 or 30, and is 0 exactly when the temperature is at most 25 |
| SensorNotifications.HumidityRisk | src/hooks/useSensorNotifications.ts:36-38 | the humidity contribution is 0, 10, 20 or 30, and is 0 exactly when the humidity is at most 60 |
| SensorNotifications.GasRisk | src/hooks/useSensorNotifications.ts:41-43 | the gas contribution is 0, 5, 15 or 25, and is 0 exactly when gas is at most 0.2 |
| SensorNotifications.VibrationRisk | src/hooks/useSensorNotifications.ts:46-47 | the vibration contribution is 0, 10 or 15, and is 0 exactly when vibration is at most 1 |
| SensorNotifications.SpoilageRisk | src/hooks/useSensorNotifications.ts:27-50 | the spoilage-risk score lies in 0..100 |
| SensorNotifications.SpoilageRiskStep | src/hooks/useSensorNotifications.ts:31-49 | every score is a multiple of 5 |
| SensorNotifications.ClampNeverApplies | src/hooks/useSensorNotifications.ts:31-49 | the unclamped sum is at most 100, so `Math.min(risk, 100)` never changes it |
| SensorNotifications.BucketBoundariesAreStrict | src/hooks/useSensorNotifications.ts:31-47 | a reading exactly on a bucket boundary falls in the lower bucket, for every boundary |
| SensorNotifications.ExampleScores | src/hooks/useSensorNotifications.ts:27-50 | a 36 °C reading with nothing else scores 30; every metric in its top bucket scores 100 |
| SensorNotifications.ContributionsMonotone | src/hooks/useSensorNotifications.ts:31-47 | each contribution never decreases as its reading rises |
| SensorNotifications.SpoilageRiskMonotone | src/hooks/useSensorNotifications.ts:31-49 | raising any readings never lowers the score |
| SensorNotifications.CriticalScores | src/hooks/useSensorNotifications.ts:108-109 | the score exceeds the critical threshold 85 exactly when it is 90, 95 or 100 |
| SensorNotifications.Fixed | src/hooks/useSensorNotifications.ts:85-97 | for non-negative x, the `toFixed` bucket is within one half of x·10ⁿ, below on the strict side |
| SensorNotifications.KeyOf | src/hooks/useSensorNotifications.ts:60-110 | a key is built only for a violation and carries its metric; its bucket is the whole degree or percent of temperature and humidity, the nearest hundredth of gas, the nearest tenth of vibration, and 90, 95 or 100 for spoilage |
| SensorNotifications.AlertOnMeaning | src/hooks/useSensorNotifications.ts:59-118 | one metric adds at most one alert, and adds its key exactly when the reading violates that metric and the key is not notified |
| SensorNotifications.AlertsAreNewCandidates | src/hooks/useSensorNotifications.ts:57-118 | a check emits a key exactly when the reading violates that key's metric with that bucket and the key is not notified |
| SensorNotifications.AlertsAreDistinct | src/hooks/useSensorNotifications.ts:57-118 | the keys one check emits are pairwise distinct |
| SensorNotifications.ThresholdsAreStrict | src/hooks/useSensorNotifications.ts:59-118 | a reading exactly on every threshold (35, 70, 0.5, 2) raises no alert |
| SensorNotifications.RecheckIsSilent | src/hooks/useSensorNotifications.ts:60-122 | once a check's keys are added, the same reading emits nothing more |
| SensorNotifications.ExpiryReAlerts | src/hooks/useSensorNotifications.ts:121-144 | after a check's own keys are removed again, the same reading emits the same alerts |
| SensorNotifications.ScheduleKeepsPartition | src/hooks/useSensorNotifications.ts:121-144 | adding a fresh, duplicate-free batch keeps the notified set equal to the disjoint union of the pending batches |
| SensorNotifications.ExpiryKeepsPartition | src/hooks/useSensorNotifications.ts:140-144 | removing one batch's keys keeps that union; all other keys stay notified |
| SensorNotifications.AlertDeduplicator.constructor | src/hooks/useSensorNotifications.ts:53 | the notified set starts empty, with no callbacks pending |
| SensorNotifications.AlertDeduplicator.Collect | src/hooks/useSensorNotifications.ts:57-118 | the collected notifications are the alerts of the reading not yet notified, in the order temperature, humidity, gas, vibration, spoilage |
| SensorNotifications.AlertDeduplicator.Send | src/hooks/useSensorNotifications.ts:120-144 | every sent key becomes notified, and one callback holding exactly those keys is scheduled, keeping the partition |
| SensorNotifications.AlertDeduplicator.Check | src/hooks/useSensorNotifications.ts:56-145 | one check emits the new alerts, adds their keys to the set and schedules their expiry |
| SensorNotifications.AlertDeduplicator.Fire | src/hooks/useSensorNotifications.ts:140-144 | the expiry callback removes exactly its own check's keys; every other key keeps its state |
| SensorNotifications.RepeatedViolation | src/hooks/useSensorNotifications.ts:56-148 | a persisting violation alerts once, stays silent on a recheck, and alerts again with the same keys after expiry |
| BluetoothSensor.Int16LE | src/hooks/useBluetoothSensor.ts:116 | `getInt16(0, true)` yields a value in -32768..32767 |
| BluetoothSensor.Uint16LE | src/hooks/useBluetoothSensor.ts:129 | `getUint16(0, true)` yields a value in 0..65535 |
| BluetoothSensor.Int16LEInjective | src/hooks/useBluetoothSensor.ts:116 | every byte pair is the two's-complement encoding of the value it decodes to |
| BluetoothSensor.Uint16LEInjective | src/hooks/useBluetoothSensor.ts:129 | every byte pair is the encoding of the unsigned value it decodes to |
| BluetoothSensor.DecodeTemperature | src/hooks/useBluetoothSensor.ts:115-117 | a value shorter than two bytes gives no temperature; otherwise it lies in [-327.68, 327.67] °C |
| BluetoothSensor.DecodeHumidity | src/hooks/useBluetoothSensor.ts:128-130 | a value shorter than two bytes gives no humidity; otherwise it lies in [0, 655.35] % |
| BluetoothSensor.TemperatureRoundTrip | src/hooks/useBluetoothSensor.ts:115-117 | a sensor sending c hundredths of a degree is read as exactly c/100, whatever follows the first two bytes |
| BluetoothSensor.HumidityRoundTrip | src/hooks/useBluetoothSensor.ts:128-130 | a sensor sending c hundredths of a percent is read as exactly c/100 |
| BluetoothSensor.TemperatureDecodingInjective | src/hooks/useBluetoothSensor.ts:115-117 | two values decode to the same temperature only if their first two bytes agree |
| BluetoothSensor.HumidityDecodingInjective | src/hooks/useBluetoothSensor.ts:128-130 | two values decode to the same humidity only if their first two bytes agree |
| BluetoothSensor.Merge | src/hooks/useBluetoothSensor.ts:150-156 | fields the update carries replace the old ones, the others keep their previous values (none without a snapshot), and the timestamp is `now` |
| BluetoothSensor.MergeIntoNothing | src/hooks/useBluetoothSensor.ts:150-156 | merging into no snapshot gives exactly the update's fields and the time |
| BluetoothSensor.MergeTwice | src/hooks/useBluetoothSensor.ts:150-156 | two merges in a row equal one merge of the combined update, stamped with the later time |
| BluetoothSensor.MergeIdempotent | src/hooks/useBluetoothSensor.ts:150-156 | repeating an update changes only the timestamp |
| BluetoothSensor.DisjointUpdatesCommute | src/hooks/useBluetoothSensor.ts:150-156 | updates carrying different fields give the same snapshot in either order |
| BluetoothSensor.DisplayName | src/hooks/useBluetoothSensor.ts:71 | the stored name is the device's name when it is non-empty, and "Unknown Sensor" otherwise; never empty |
| BluetoothSensor.Subscribed | src/hooks/useBluetoothSensor.ts:106-148 | a characteristic ends up notifying exactly when the service was found and that characteristic's own attempt succeeded |
| BluetoothSensor.HumidityIndependentOfTemperature | src/hooks/useBluetoothSensor.ts:112-135 | a temperature failure never costs the humidity subscription; a missing service leaves none |
| BluetoothSensor.ValueUpdate | src/hooks/useBluetoothSensor.ts:114-131 | a notification yields a single-field update of its own characteristic exactly when its value has two bytes |
| BluetoothSensor.SensorConnection.constructor | src/hooks/useBluetoothSensor.ts:20-28 | after mounting, support is whether the browser has Bluetooth; no device, no data, not connecting, no listeners |
| BluetoothSensor.SensorConnection.BeginScan | src/hooks/useBluetoothSensor.ts:30-40 | without Bluetooth nothing changes; otherwise the hook is connecting and nothing else changes |
| BluetoothSensor.SensorConnection.StartReadingData | src/hooks/useBluetoothSensor.ts:106-148 | the reading-error toast is shown exactly when the service is missing; the device gains exactly the subscriptions that succeeded, and other devices' subscriptions are unchanged |
| BluetoothSensor.SensorConnection.FinishScan | src/hooks/useBluetoothSensor.ts:42-103 | on a GATT server the device is stored with its display name, watched and subscribed; any failure leaves device state as it was; connecting ends either way |
| BluetoothSensor.SensorConnection.ScanAndConnect | src/hooks/useBluetoothSensor.ts:30-104 | the whole attempt: "not supported" and no change without Bluetooth, otherwise as `FinishScan`, with the snapshot untouched |
| BluetoothSensor.SensorConnection.Disconnect | src/hooks/useBluetoothSensor.ts:158-172 | with a device stored, the device and snapshot are cleared; with none, nothing changes; listeners stay either way |
| BluetoothSensor.SensorConnection.PeripheralDisconnected | src/hooks/useBluetoothSensor.ts:81-89 | the dropped device's notifications stop; if it carries the listener, device and snapshot are cleared, otherwise they stay |
| BluetoothSensor.SensorConnection.ValueChanged | src/hooks/useBluetoothSensor.ts:114-131 | a subscribed notification that decodes is merged into the snapshot at `now`; anything else leaves the snapshot as it was |
| BluetoothSensor.ReadingAfterDisconnect | src/hooks/useBluetoothSensor.ts:158-163 | after connecting and disconnecting, a temperature notification still creates a snapshot while no device is stored |
| BluetoothSensor.StaleWatcherClearsNewDevice | src/hooks/useBluetoothSensor.ts:81-83 | when an earlier device drops, its listener clears the device connected after it |
| Dashboard.TemperatureStatus | src/pages/Dashboard.tsx:13-17 | danger exactly above 35, warning exactly in (30, 35], safe exactly up to 30 |
| Dashboard.HumidityStatus | src/pages/Dashboard.tsx:19-23 | danger exactly outside [40, 70], warning exactly in [40, 45) or (65, 70], safe exactly in [45, 65] |
| Dashboard.GasStatus | src/pages/Dashboard.tsx:25-29 | danger exactly above 0.5, warning exactly in (0.3, 0.5], safe exactly up to 0.3 |
| Dashboard.VibrationStatus | src/pages/Dashboard.tsx:31-35 | danger exactly above 2, warning exactly in (1, 2], safe exactly up to 1 |
| Dashboard.StatusMonotone | src/pages/Dashboard.tsx:13-35 | temperature, gas and vibration status never become less severe as the reading rises |
| Dashboard.HumidityNotMonotone | src/pages/Dashboard.tsx:19-23 | humidity status is worse at 30 than at 50 and worse at 80 than at 50 |
| Dashboard.DangerMatchesAlert | src/pages/Dashboard.tsx:13-35 | temperature, gas and vibration are in danger exactly when they violate the alert threshold; humidity too, from 40 up |
| Dashboard.LowHumidityDangerHasNoAlert | src/pages/Dashboard.tsx:20 | humidity 30 is shown in danger, yet a reading of (20, 30, 0, 0) raises no alert |
| Language.English | src/contexts/LanguageContext.tsx:36-139 | the English table: every text it lists is non-empty |
| Language.Hindi | src/contexts/LanguageContext.tsx:140-243 | the Hindi table: every text it lists is non-empty |
| Language.Entry | src/contexts/LanguageContext.tsx:25 | `translations[language][key]` for the listed keys; a listed text is never empty, so the fallback only applies to unlisted keys |
| Language.Translate | src/contexts/LanguageContext.tsx:24-26 | the current table's text when it lists the key, and the key itself otherwise |
| Language.MissingKeyFallsBack | src/contexts/LanguageContext.tsx:25 | a key neither table lists translates to itself in both languages |
| Language.ListedKeyTranslates | src/contexts/LanguageContext.tsx:24-26 | "settings.save" translates to the English and to the Hindi text its tables list |
| Language.LanguageProvider.constructor | src/contexts/LanguageContext.tsx:22 | the provider starts in English |
| Language.LanguageProvider.SetLanguage | src/contexts/LanguageContext.tsx:22 | the selected language becomes the given one |
| Language.LanguageProvider.T | src/contexts/LanguageContext.tsx:24-26 | `t(key)` is the current language's text when its table lists the key, and the key itself otherwise |

## Left out

- Toasts, browser `Notification`s, their texts and the notification-permission request are not modelled. The keys a check emits stand for its notifications.
- Timing is not modelled. The 30-second `setTimeout` is a pending callback that `Fire` runs at any later point.
- Numbers are reals, not IEEE doubles. `toFixed` is modelled as round-half-up, without binary rounding error and without exponential notation for huge values.
- The Web Bluetooth calls (`requestDevice`, `gatt.connect`, `getPrimaryService`, `getCharacteristic`, `startNotifications`) and their errors are abstract outcomes. Device filters and UUIDs are not modelled.
- `updateSensorData`'s clock is the parameter `now`.
- The render before the mount effect, when `isSupported` is still false, is not modelled. The constructor gives the state after the effect.
- `BluetoothSensor.SensorConnection.FinishScan`: `startReadingData` is not awaited in the source. Its effect is applied within the attempt, before connecting ends. Concurrent attempts are not modelled, because the connect button is disabled while connecting.
- That a dropped link stops a device's notifications is a platform assumption, built into `PeripheralDisconnected`.
- The dashboard's simulated readings, its refresh interval and the rest of its rendering are not modelled.
- Gas and vibration are never read over Bluetooth in the source, so the model has no characteristics for them. They still appear in the snapshot and the merge.
- `Language`: the two tables are modelled as lookups by key, searched section by section. The model does not prove that both tables list the same keys.
- Language.Entry: only a table's own keys are modelled. In the source the tables are plain object literals, so a key such as "constructor", "toString" or "__proto__" finds an inherited `Object.prototype` member, and `t` returns that function or object instead of the key. The model returns the key for those.
- The other pages, components, the Supabase edge functions and the app configuration are not part of this model.
