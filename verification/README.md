# ClimaSense-AI: a Dafny model of the weather and air-quality core

ClimaSense-AI is a weather and air-quality dashboard written in TypeScript
and React. This project models the part of it that turns raw provider
replies and user settings into what the dashboard shows. That part covers:

- the US EPA breakpoint tables and the air-quality index (AQI) they define,
  with the carbon-monoxide unit guess;
- the World Air Quality Index (WAQI) station pipeline and its eight-city
  demo fallback;
- the six-band colour, category and advice classifiers;
- the OpenWeatherMap client: key and city validation, status-to-error
  mapping, the reply shape check, the hourly and daily forecast, the 1-5
  pollution index on the 0-500 scale, and the condition classifier;
- the map helpers (coordinate check, marker size, padded bounding box);
- the API-key checks and the settings store with its favourites list;
- one run of the `useWeather` load pipeline over its five pieces of state;
- the threshold classifiers in the views: pollutant status and advice on
  the AQI page, the health-recommendation rules, the breakdown panel, the
  badge, the location card, the wind radar and the animated icon.

One Dafny module stands for each source file. `Js` holds the JavaScript
notions the code relies on:

- `Option`;
- numbers that may be NaN;
- truthiness;
- `Math.round` as the floor of x + 0.5;
- `filter`, `map` and `slice`.

`Text` holds ASCII `trim`, `toLowerCase`, `includes`, `split(',')[0]` and
`parseInt`.

Every network reply is a parameter of type `Http<B>`. It is either a thrown
exception or a status, status text, error message and parsed body. The
environment key, the stored settings record, the clock and the locale
functions (date key, hour label, weekday name) are parameters too.

The code is imperative in three places, and the model keeps that form:

- `calculateAQI`, `calculateBounds`, the day-map fill of `fetchForecast` and
  `getRecommendations` are methods with loops or step-by-step updates. Each
  is proved equal to a specification function whose properties are lemmas.
- The settings hook is a class `Settings.SettingsStore` whose methods
  reassign its fields.
- The weather hook is a class `WeatherHook.WeatherLoader` with the five
  state fields and a ghost log of the requests issued. Its
  `LoadWeatherData` is proved to end in the state that a trace function
  (`LoadTrace`) describes. The properties of the load (order, abort on
  error, renaming) are lemmas about that trace.

## Model

| member | source | states |
|---|---|---|
| AqiApi.TableShape | ClimaSense-AI-main/src/services/aqiApi.ts:26-75 | every known pollutant tag has six bands, each a proper interval, ascending and non-overlapping, with index ranges 0-50, 51-100, 101-150, 151-200, 201-300 and 301-500 |
| AqiApi.Pm25Shape | ClimaSense-AI-main/src/services/aqiApi.ts:27-34 | the PM2.5 table has the EPA shape |
| AqiApi.Pm10Shape | ClimaSense-AI-main/src/services/aqiApi.ts:35-42 | the PM10 table has the EPA shape |
| AqiApi.O3Shape | ClimaSense-AI-main/src/services/aqiApi.ts:43-50 | the ozone table has the EPA shape |
| AqiApi.No2Shape | ClimaSense-AI-main/src/services/aqiApi.ts:51-58 | the NO2 table has the EPA shape |
| AqiApi.So2Shape | ClimaSense-AI-main/src/services/aqiApi.ts:59-66 | the SO2 table has the EPA shape |
| AqiApi.CoShape | ClimaSense-AI-main/src/services/aqiApi.ts:67-74 | the CO table has the EPA shape |
| AqiApi.AscendingWellFormed | ClimaSense-AI-main/src/services/aqiApi.ts:26-75 | bands that are each ordered and each end below the start of the next put every earlier band entirely below every later band |
| AqiApi.UnknownTagHasNoTable | ClimaSense-AI-main/src/services/aqiApi.ts:81-82 | a table exists exactly for the six tags pm25, pm10, o3, no2, so2 and co |
| AqiApi.Interpolate | ClimaSense-AI-main/src/services/aqiApi.ts:94-96 | the rounded linear interpolation inside one band; its contract is carried by InterpolateWithin, InterpolateEnds and InterpolateMonotone |
| AqiApi.InterpolateWithin | ClimaSense-AI-main/src/services/aqiApi.ts:94-96 | the rounded interpolation of a value inside a band lies within the band's index range |
| AqiApi.InterpolateEnds | ClimaSense-AI-main/src/services/aqiApi.ts:94-96 | a band's lower end gives its lower index and its upper end its upper index |
| AqiApi.InterpolateMonotone | ClimaSense-AI-main/src/services/aqiApi.ts:94-96 | inside a band the index never decreases as the concentration grows |
| AqiApi.Lookup | ClimaSense-AI-main/src/services/aqiApi.ts:92-101 | the table walk's result always lies in [0, 500] |
| AqiApi.LookupInBand | ClimaSense-AI-main/src/services/aqiApi.ts:92-97 | in a well-formed table, a value inside band k is interpolated in band k |
| AqiApi.LookupMiss | ClimaSense-AI-main/src/services/aqiApi.ts:98-101 | a value in no band gives 500 |
| AqiApi.AqiOf | ClimaSense-AI-main/src/services/aqiApi.ts:80-101 | `calculateAQI` as a value: 0 for a tag without a table, and always in [0, 500]; BandEnds, WithinBand and the 500 lemmas state the rest |
| AqiApi.CalculateAqi | ClimaSense-AI-main/src/services/aqiApi.ts:80-101 | `calculateAQI` gives 0 for a tag without a table, otherwise a value in [0, 500] equal to the lookup of the (CO-adjusted) value |
| AqiApi.FirstBand | ClimaSense-AI-main/src/services/aqiApi.ts:92-101 | the `for` loop over the bands returns the interpolation in the first band that contains the value, or 500 |
| AqiApi.BandEnds | ClimaSense-AI-main/src/services/aqiApi.ts:26-101 | each band's lower end gives its lower index, and its upper end gives its upper index for every band but the top CO band |
| AqiApi.WithinBand | ClimaSense-AI-main/src/services/aqiApi.ts:92-97 | between two values in one band the index is non-decreasing and stays in the band's range |
| AqiApi.NegativeGives500 | ClimaSense-AI-main/src/services/aqiApi.ts:92-101 | a negative concentration of a known pollutant gives 500 |
| AqiApi.AboveTopGives500 | ClimaSense-AI-main/src/services/aqiApi.ts:92-101 | a concentration above the top band gives 500 |
| AqiApi.GapGives500 | ClimaSense-AI-main/src/services/aqiApi.ts:28-41 | values in the gaps between bands (PM2.5 12.05, PM10 54.5) give 500 |
| AqiApi.CoExamples | ClimaSense-AI-main/src/services/aqiApi.ts:67-74 | the CO unit guess: 40 gives 396, 50 gives 496, 4500 gives 51 |
| AqiApi.CoAt | ClimaSense-AI-main/src/services/aqiApi.ts:88-97 | a CO value whose adjusted value lies in band k and interpolates near an integer gets that integer |
| AqiApi.CoTopBandCeilingMisread | ClimaSense-AI-main/src/services/aqiApi.ts:73 | as written, the top CO band's upper end 50.4 is divided by 1000 and gives 1 |
| AqiApi.AqiOfCorrected | ClimaSense-AI-main/src/services/aqiApi.ts:80-101 | the index with the corrected CO threshold: 0 for an unknown tag, otherwise in [0, 500] |
| AqiApi.CorrectedBandEnds | ClimaSense-AI-main/src/services/aqiApi.ts:26-101 | with the corrected threshold, every band of every table gives its lower and upper index at its two ends |
| AqiApi.ToAqiDataTags | ClimaSense-AI-main/src/services/aqiApi.ts:134-157 | each station record has country 'Unknown', dominant pollutant PM2.5, source 'World Air Quality Index' and exactly one measurement equal to its aqi |
| AqiApi.ToAqiData | ClimaSense-AI-main/src/services/aqiApi.ts:134-158 | the record built from one station; its contract is carried by ToAqiDataTags and StationNames |
| AqiApi.StationNames | ClimaSense-AI-main/src/services/aqiApi.ts:145-147 | location is the station name or 'Unknown Station'; city is the text before the first comma, or 'Unknown City' when there is no name or that text is empty (a name "" or ", Delhi") |
| AqiApi.StationsToLocations | ClimaSense-AI-main/src/services/aqiApi.ts:125-160 | the station chain yields at most 50 records, each a station record |
| AqiApi.ChainKeepsAccepted | ClimaSense-AI-main/src/services/aqiApi.ts:125-159 | the filter, map, filter chain equals mapping the stations that have a reading and an index in (0, 500] |
| AqiApi.StationsOrder | ClimaSense-AI-main/src/services/aqiApi.ts:125-160 | output i is the record of accepted station i, in input order, and the output length is min(50, number accepted) |
| AqiApi.FetchGlobalAqiData | ClimaSense-AI-main/src/services/aqiApi.ts:107-171 | the result is the demo set exactly when the reply failed (thrown, non-ok, status not 'ok', data not an array); otherwise every record comes from WAQI |
| AqiApi.DemoFacts | ClimaSense-AI-main/src/services/aqiApi.ts:176-264 | the demo set has eight cities with indices 25, 35, 45, 180, 120, 55, 95 and 75, all tagged 'Demo Data', each with one measurement equal to its aqi |
| AqiApi.DemoAqiData | ClimaSense-AI-main/src/services/aqiApi.ts:176-264 | `getDemoAQIData`; its contract is carried by DemoFacts and FetchGlobalAqiData |
| AqiApi.BandIndex | ClimaSense-AI-main/src/services/aqiApi.ts:269-300 | the band of an index is one of six, 0 to 5 |
| AqiApi.BandIndexBounds | ClimaSense-AI-main/src/services/aqiApi.ts:269-300 | band k holds exactly the indices above the (k-1)th cut-off and at most the kth, with inclusive cut-offs 50/100/150/200/300 |
| AqiApi.AqiColor | ClimaSense-AI-main/src/services/aqiApi.ts:269-276 | `getAQIColor` gives the colour of the band BandIndex counts |
| AqiApi.AqiCategory | ClimaSense-AI-main/src/services/aqiApi.ts:281-288 | `getAQICategory` gives the category of the band BandIndex counts |
| AqiApi.AqiHealthAdvice | ClimaSense-AI-main/src/services/aqiApi.ts:293-300 | `getAQIHealthAdvice` gives the advice of the band BandIndex counts |
| AqiApi.ClassifiersAgree | ClimaSense-AI-main/src/services/aqiApi.ts:269-300 | colour, category and advice all pick the entry of the same band |
| AqiApi.ClassifiersDistinguishBands | ClimaSense-AI-main/src/services/aqiApi.ts:269-288 | indices in different bands get different colours and different categories |
| WeatherApi.NormalizeError | ClimaSense-AI-main/src/services/weatherApi.ts:147-168 | the catch block keeps a client error unchanged; a TypeError mentioning 'fetch' becomes a network error; anything else becomes an unknown error keeping its message |
| WeatherApi.NormalizeIdempotent | ClimaSense-AI-main/src/services/weatherApi.ts:147-168 | normalising an already normalised error changes nothing |
| WeatherApi.MessageOr | ClimaSense-AI-main/src/services/weatherApi.ts:117 | the server's message when present and non-empty, else the fallback text |
| WeatherApi.CurrentStatusError | ClimaSense-AI-main/src/services/weatherApi.ts:93-121 | a non-ok status maps to INVALID_API_KEY (401), CITY_NOT_FOUND with the city in the message (404), RATE_LIMIT (429) or API_ERROR, always carrying the status |
| WeatherApi.ForecastStatusError | ClimaSense-AI-main/src/services/weatherApi.ts:199-221 | the forecast request maps only 401 and 429, and every other status to API_ERROR, carrying the status |
| WeatherApi.StatusTablesDiffer | ClimaSense-AI-main/src/services/weatherApi.ts:97-121 | the two status tables agree on every status but 404 |
| WeatherApi.ToWeatherData | ClimaSense-AI-main/src/services/weatherApi.ts:131-146 | for a reply with every block: temperature, feels-like and wind are rounded; the other fields are copied from the reply, the country from `sys` and the coordinates from `coord` |
| WeatherApi.MissingBlockError | ClimaSense-AI-main/src/services/weatherApi.ts:131-146 | reading through a missing `sys`, `wind` or `coord` raises a TypeError whose message never mentions 'fetch' |
| WeatherApi.FetchWeatherData | ClimaSense-AI-main/src/services/weatherApi.ts:70-169 | a blank key gives MISSING_API_KEY, then a blank city gives INVALID_CITY; then status errors, INVALID_RESPONSE for a bad shape, UNKNOWN_ERROR with the TypeError's message for a reply lacking `sys`, `wind` or `coord`, and the normalised thrown error; success only for an ok reply with a valid shape and every block |
| WeatherApi.ValidationBeforeRequest | ClimaSense-AI-main/src/services/weatherApi.ts:76-87 | a blank key or city fails whatever the reply, so no request is made |
| WeatherApi.CurrentErrorsCarryStatus | ClimaSense-AI-main/src/services/weatherApi.ts:93-168 | every current-weather failure is typed, and a status error carries its status |
| WeatherApi.Hourly | ClimaSense-AI-main/src/services/weatherApi.ts:230-234 | the hourly strip is the first min(8, n) entries, in order, with rounded temperatures |
| WeatherApi.DateKeysDistinct | ClimaSense-AI-main/src/services/weatherApi.ts:237-244 | the day map has no key twice |
| WeatherApi.DateKeysComplete | ClimaSense-AI-main/src/services/weatherApi.ts:237-244 | a date key is in the map exactly when some entry has it |
| WeatherApi.DateKeysInOrder | ClimaSense-AI-main/src/services/weatherApi.ts:237-244 | keys appear in order of first encounter |
| WeatherApi.DayItemsFacts | ClimaSense-AI-main/src/services/weatherApi.ts:237-244 | a day's group is non-empty exactly for listed keys and holds only entries with that key |
| WeatherApi.EntryInItsDay | ClimaSense-AI-main/src/services/weatherApi.ts:238-243 | every entry lands in the group of its own date key |
| WeatherApi.Temps | ClimaSense-AI-main/src/services/weatherApi.ts:247 | the temperatures are those of the day's entries, in order |
| WeatherApi.Summarize | ClimaSense-AI-main/src/services/weatherApi.ts:247-259 | a day's summary has temp equal to the rounded mean of its temperatures, tempMin and tempMax the rounded minimum and maximum (bounding every rounded temperature and each attained), and condition, icon, humidity and wind from the middle entry |
| WeatherApi.DayRow | ClimaSense-AI-main/src/services/weatherApi.ts:246-260 | a day row is named by the key's weekday and ordered min <= mean <= max |
| WeatherApi.DaysOf | ClimaSense-AI-main/src/services/weatherApi.ts:246-260 | one row per kept key |
| WeatherApi.DaysOfRows | ClimaSense-AI-main/src/services/weatherApi.ts:246-260 | row i is the row of key i |
| WeatherApi.Daily | ClimaSense-AI-main/src/services/weatherApi.ts:237-260 | at most seven daily rows, one per distinct date key in first-encounter order |
| WeatherApi.GroupByDate | ClimaSense-AI-main/src/services/weatherApi.ts:237-244 | the `forEach` that fills the day map yields exactly the date keys in encounter order, each holding its entries |
| WeatherApi.BuildDaily | ClimaSense-AI-main/src/services/weatherApi.ts:237-260 | filling the map, keeping seven keys and summarising gives the daily rows |
| WeatherApi.ForecastOf | ClimaSense-AI-main/src/services/weatherApi.ts:178-284 | `fetchForecast` as one value; its contract is carried by FetchForecast, ForecastPropagatesCurrentErrors, Forecast404IsApiError and ForecastShape |
| WeatherApi.SummarizeDays | ClimaSense-AI-main/src/services/weatherApi.ts:246-260 | the `map` over the kept keys gives the rows of those keys |
| WeatherApi.FetchForecast | ClimaSense-AI-main/src/services/weatherApi.ts:179-284 | `fetchForecast` computes the forecast function of its replies |
| WeatherApi.ForecastPropagatesCurrentErrors | ClimaSense-AI-main/src/services/weatherApi.ts:194-267 | every current-weather failure reaches the forecast caller unchanged |
| WeatherApi.Forecast404IsApiError | ClimaSense-AI-main/src/services/weatherApi.ts:214-219 | a 404 from the forecast request is API_ERROR carrying 404 |
| WeatherApi.ForecastShape | ClimaSense-AI-main/src/services/weatherApi.ts:225-262 | a successful forecast has at most eight hourly and seven daily rows, each day ordered |
| WeatherApi.ScaleAqi | ClimaSense-AI-main/src/services/weatherApi.ts:335-339 | an integer 1..5 maps to 50/100/150/200/300, and anything else to 50 |
| WeatherApi.Level | ClimaSense-AI-main/src/services/weatherApi.ts:344-349 | a component is round(x), or 0 when x is missing, 0 or NaN |
| WeatherApi.FetchAirPollution | ClimaSense-AI-main/src/services/weatherApi.ts:294-357 | None for a blank key, NaN coordinates, a thrown call, a non-ok status or an empty list; otherwise an index from the 50..300 scale taken from the first entry |
| WeatherApi.FetchAqi | ClimaSense-AI-main/src/services/weatherApi.ts:367-370 | the index of the pollution data when there is some, or 50 when there is none |
| WeatherApi.GetWeatherCondition | ClimaSense-AI-main/src/services/weatherApi.ts:372-379 | on the lowercased text, each kind holds exactly when its keywords occur and no earlier kind's do: storm (thunder/storm), then rainy (rain/drizzle), then sunny (clear/sun), then cloudy (cloud), else the default |
| WeatherApi.ConditionIgnoresCase | ClimaSense-AI-main/src/services/weatherApi.ts:373 | lowercasing the input first changes nothing |
| AqiUtils.NumberOrZero | ClimaSense-AI-main/src/lib/aqiUtils.ts:14-15 | `Number(x) or 0` keeps a truthy number and turns 0 and NaN into 0 |
| AqiUtils.IsValidCoordinates | ClimaSense-AI-main/src/lib/aqiUtils.ts:79-90 | the coordinate range test; its contract is carried by NanTestsImplied |
| AqiUtils.NormalizeAqiData | ClimaSense-AI-main/src/lib/aqiUtils.ts:6-18 | every field is kept except the coordinates, made finite; the label is "city, country"; colour and category are those of the index's band |
| AqiUtils.NormalizeIdempotent | ClimaSense-AI-main/src/lib/aqiUtils.ts:6-18 | normalising a normalised record changes nothing |
| AqiUtils.GetMarkerSize | ClimaSense-AI-main/src/lib/aqiUtils.ts:23-30 | the marker size is 8 + 2 * band, from 8 to 18 |
| AqiUtils.MarkerSizeMonotone | ClimaSense-AI-main/src/lib/aqiUtils.ts:23-30 | a worse index never gets a smaller marker |
| AqiUtils.NanTestsImplied | ClimaSense-AI-main/src/lib/aqiUtils.ts:79-90 | the coordinates are valid exactly when both are within range; the NaN tests add nothing |
| AqiUtils.ExtremesMeaning | ClimaSense-AI-main/src/lib/aqiUtils.ts:117-129 | the running extremes are absent exactly when no location is valid; otherwise they enclose every valid location and each is attained by one |
| AqiUtils.ExtremesNone | ClimaSense-AI-main/src/lib/aqiUtils.ts:117-129 | no extremes exactly when no location has valid coordinates |
| AqiUtils.ExtremesEnclose | ClimaSense-AI-main/src/lib/aqiUtils.ts:121-126 | the extremes enclose every valid location |
| AqiUtils.ExtremesAttained | ClimaSense-AI-main/src/lib/aqiUtils.ts:121-126 | each extreme is the coordinate of some valid location |
| AqiUtils.Padded | ClimaSense-AI-main/src/lib/aqiUtils.ts:132-138 | each corner lies a tenth of its span beyond the extent: south and north by a tenth of the latitude span, west and east by a tenth of the longitude span |
| AqiUtils.BoundsOf | ClimaSense-AI-main/src/lib/aqiUtils.ts:109-142 | what `calculateBounds` returns, as one value; its contract is carried by BoundsContain, InvalidIgnored and SinglePoint |
| AqiUtils.CalculateBounds | ClimaSense-AI-main/src/lib/aqiUtils.ts:109-139 | the `forEach` over the four running extremes, then padding, equals the bounds function |
| AqiUtils.BoundsContain | ClimaSense-AI-main/src/lib/aqiUtils.ts:109-139 | no box exactly when no location is valid (an empty list included); otherwise the corners are ordered and every valid location lies inside |
| AqiUtils.InvalidIgnored | ClimaSense-AI-main/src/lib/aqiUtils.ts:121 | a location with invalid coordinates does not move the extremes |
| AqiUtils.SinglePoint | ClimaSense-AI-main/src/lib/aqiUtils.ts:132-138 | a single valid location gives a zero-area box at that point |
| Config.GetApiKey | ClimaSense-AI-main/src/lib/config.ts:11-27 | '' for an unset or empty variable, else its trimmed value |
| Config.GetApiKeyTrimmed | ClimaSense-AI-main/src/lib/config.ts:26 | the returned key is already trimmed |
| Config.ValidateApiKey | ClimaSense-AI-main/src/lib/config.ts:30-38 | the key check; its contract is carried by ValidateMeaning |
| Config.ValidateMeaning | ClimaSense-AI-main/src/lib/config.ts:30-38 | a key is valid exactly when its trimmed length is at least 10; a blank key never is |
| Config.GetValidatedApiKey | ClimaSense-AI-main/src/lib/config.ts:41-56 | the result is '' or the environment key unchanged, and the latter passes validation |
| Config.IsApiKeyConfigured | ClimaSense-AI-main/src/lib/config.ts:67-69 | `isApiKeyConfigured`; its contract is carried by ConfiguredIffValidated and BlankEnvNotConfigured |
| Config.ConfiguredIffValidated | ClimaSense-AI-main/src/lib/config.ts:67-69 | configured exactly when the validated key is not '' |
| Config.BlankEnvNotConfigured | ClimaSense-AI-main/src/lib/config.ts:41-69 | an unset or blank variable is never configured |
| Settings.GetDefaultApiKey | ClimaSense-AI-main/src/hooks/useSettings.tsx:14-30 | a stored non-blank key wins; otherwise the validated environment key |
| Settings.StoredKeyWins | ClimaSense-AI-main/src/hooks/useSettings.tsx:18-23 | with a stored key, the environment does not matter |
| Settings.DefaultValues | ClimaSense-AI-main/src/hooks/useSettings.tsx:32-39 | defaults are metric, dark, notifications on, location Nashik, favourites [Nashik] |
| Settings.Merge | ClimaSense-AI-main/src/hooks/useSettings.tsx:80 | `{ ...s, ...p }`: the fields present in p replace those of s, the others are kept |
| Settings.MergeLaws | ClimaSense-AI-main/src/hooks/useSettings.tsx:79-81 | an empty update changes nothing, and applying an update twice is applying it once |
| Settings.InitialSettings | ClimaSense-AI-main/src/hooks/useSettings.tsx:44-57 | the `useState` initializer; its contract is carried by InitialKeyPrecedence |
| Settings.InitialKeyPrecedence | ClimaSense-AI-main/src/hooks/useSettings.tsx:44-57 | initial key: a stored non-blank key, else a valid environment key, else the stored blank key or ''; the other fields are the stored ones over the defaults |
| Settings.SettingsStore.constructor | ClimaSense-AI-main/src/hooks/useSettings.tsx:44-57 | the store starts with the initial settings |
| Settings.SettingsStore.UpdateSettings | ClimaSense-AI-main/src/hooks/useSettings.tsx:79-81 | exactly the fields present in the partial change |
| Settings.WithFavorite | ClimaSense-AI-main/src/hooks/useSettings.tsx:84-88 | an absent location is appended at the end; a present one leaves the list as it is |
| Settings.WithFavoriteLaws | ClimaSense-AI-main/src/hooks/useSettings.tsx:83-89 | adding twice is adding once, and a duplicate-free list stays duplicate-free |
| Settings.SettingsStore.AddFavoriteLocation | ClimaSense-AI-main/src/hooks/useSettings.tsx:83-89 | only the favourites change, to the list with the location added |
| Settings.WithoutFavorite | ClimaSense-AI-main/src/hooks/useSettings.tsx:93 | the result lacks the location and keeps every other entry, and only entries of the list |
| Settings.WithoutFavoriteAppend | ClimaSense-AI-main/src/hooks/useSettings.tsx:93 | removal keeps the other entries in order |
| Settings.WithoutFavoriteLaws | ClimaSense-AI-main/src/hooks/useSettings.tsx:83-95 | removing after adding is plain removal, and removing twice is removing once |
| Settings.SettingsStore.RemoveFavoriteLocation | ClimaSense-AI-main/src/hooks/useSettings.tsx:91-95 | only the favourites change, to the list without the location |
| WeatherHook.Location | ClimaSense-AI-main/src/hooks/useWeather.tsx:14 | the city argument when non-empty, else the settings location |
| WeatherHook.EffectiveKey | ClimaSense-AI-main/src/hooks/useWeather.tsx:19 | the settings key when non-empty, else the validated environment key |
| WeatherHook.KeyHint | ClimaSense-AI-main/src/hooks/useWeather.tsx:21-24 | the hint shown for a blank key; its contract is carried by BlankKeyCases |
| WeatherHook.BlankKeyCases | ClimaSense-AI-main/src/hooks/useWeather.tsx:19-24 | a blank effective key comes from a blank settings key or an unconfigured environment, and an empty settings key then shows the 'configure' hint |
| WeatherHook.NormalizeLocation | ClimaSense-AI-main/src/hooks/useWeather.tsx:52-57 | Jakarta becomes Nashik and ID becomes IN, independently and only on exact match; the index is attached; nothing else changes |
| WeatherHook.NormalizeLocationIdempotent | ClimaSense-AI-main/src/hooks/useWeather.tsx:52-57 | renaming twice is renaming once |
| WeatherHook.AttachedAqi | ClimaSense-AI-main/src/hooks/useWeather.tsx:45-49 | the attached index is one of 50/100/150/200/300; it is the detailed index when there is one, else what `fetchAQI` gives on the fallback reply |
| WeatherHook.LoadTrace | ClimaSense-AI-main/src/hooks/useWeather.tsx:33-61 | the try block of one load with a usable key, as its outcome and its requests; its contract is carried by StepOrder, LoadedFacts and ForecastNeedsCurrent |
| WeatherHook.StepOrder | ClimaSense-AI-main/src/hooks/useWeather.tsx:34-49 | requests are a prefix of current, current, forecast, pollution, pollution; none is made exactly when the location is blank; pollution is asked exactly when both weather calls succeeded, and the fallback exactly when the detailed reply gave nothing |
| WeatherHook.LoadedFacts | ClimaSense-AI-main/src/hooks/useWeather.tsx:45-59 | a completed load attaches an index from the pollution scale, equal to the detailed one when present, to the renamed current weather |
| WeatherHook.ForecastNeedsCurrent | ClimaSense-AI-main/src/hooks/useWeather.tsx:35 | a successful forecast step implies its own current-weather call succeeded |
| WeatherHook.Settle | ClimaSense-AI-main/src/hooks/useWeather.tsx:59-77 | loading ends; a failure sets its message and keeps the three data fields; a success sets all three and clears the error |
| WeatherHook.WeatherLoader.constructor | ClimaSense-AI-main/src/hooks/useWeather.tsx:8-12 | nothing loaded, loading, no error, no request |
| WeatherHook.WeatherLoader.LoadWeatherData | ClimaSense-AI-main/src/hooks/useWeather.tsx:17-78 | a blank key sets the hint, ends loading and makes no request; otherwise error is cleared, loading set, and the state settles as the trace says with exactly the trace's requests |
| WeatherHook.WeatherLoader.RunSteps | ClimaSense-AI-main/src/hooks/useWeather.tsx:33-77 | the try/finally block ends in the settled state of the load's trace and issues its requests, none for a blank location |
| WeatherHook.WeatherLoader.LaterSteps | ClimaSense-AI-main/src/hooks/useWeather.tsx:35-61 | after the current weather: a forecast failure aborts, otherwise the pollution step runs |
| WeatherHook.WeatherLoader.ForecastStep | ClimaSense-AI-main/src/hooks/useWeather.tsx:35 | the forecast call makes its current-weather request, then the list request only when that succeeded, and changes no state |
| WeatherHook.WeatherLoader.FetchPollution | ClimaSense-AI-main/src/hooks/useWeather.tsx:38-61 | the detailed request, the fallback only when it gave nothing, then all three fields set together |
| AqiPage.Grade | ClimaSense-AI-main/src/pages/AQI.tsx:14-44 | the label index is the first cut-off the value does not exceed, or 4 |
| AqiPage.GradeMonotone | ClimaSense-AI-main/src/pages/AQI.tsx:14-44 | with ascending cut-offs a larger value never gets a lower index |
| AqiPage.CoMilligrams | ClimaSense-AI-main/src/pages/AQI.tsx:48-55 | CO above 100 is read as ppb (times 1.15) and anything else as ug/m3, both divided by 1000; the switch lands above and below 0.1 mg/m3 |
| AqiPage.CoMilligramsMonotone | ClimaSense-AI-main/src/pages/AQI.tsx:48-55 | the unit guess keeps the order of readings |
| AqiPage.GetPollutantStatus | ClimaSense-AI-main/src/pages/AQI.tsx:12-64 | one of five labels, never 'Hazardous'; 'Good' for an unknown name |
| AqiPage.Severity | ClimaSense-AI-main/src/pages/AQI.tsx:16-20 | each label's position in the severity order |
| AqiPage.CutsAscending | ClimaSense-AI-main/src/pages/AQI.tsx:15-60 | every pollutant's cut-offs strictly increase |
| AqiPage.StatusBands | ClimaSense-AI-main/src/pages/AQI.tsx:15-60 | the label of severity k is returned exactly for values above cut-off k-1 and at most cut-off k (12/35/55/150, 20/50/100/250, 100/160/200/300, 40/80/180/280, 20/80/250/350, CO 4.5/9/15/30) |
| AqiPage.StatusMonotone | ClimaSense-AI-main/src/pages/AQI.tsx:14-63 | a higher reading is never less severe |
| AqiPage.LowCoIsGood | ClimaSense-AI-main/src/pages/AQI.tsx:45-56 | every CO reading up to 100 is Good |
| AqiPage.GetStatusColor | ClimaSense-AI-main/src/pages/AQI.tsx:167-174 | `getStatusColor`; its contract is carried by StatusColorOfLabels |
| AqiPage.StatusColorOfLabels | ClimaSense-AI-main/src/pages/AQI.tsx:167-174 | each label gets its own level's colour ('Unhealthy for Sensitive' via the Sensitive test), never the hazardous one |
| AqiPage.NoEarlyKeyword | ClimaSense-AI-main/src/pages/AQI.tsx:168-170 | a label without G, M and S passes over the first three tests |
| AqiPage.SensitiveLacksEarly | ClimaSense-AI-main/src/pages/AQI.tsx:168-169 | 'Unhealthy for Sensitive' has neither Good nor Moderate |
| AqiPage.SensitiveHasSensitive | ClimaSense-AI-main/src/pages/AQI.tsx:170 | 'Unhealthy for Sensitive' has Sensitive |
| AqiPage.UnhealthyKeywords | ClimaSense-AI-main/src/pages/AQI.tsx:168-171 | 'Unhealthy' fails the first three tests and passes the fourth |
| AqiPage.VeryUnhealthyKeywords | ClimaSense-AI-main/src/pages/AQI.tsx:168-172 | 'Very Unhealthy' fails the first four tests and passes the fifth |
| AqiPage.DemoModeForced | ClimaSense-AI-main/src/pages/AQI.tsx:81-100 | with demo mode forced, the demo tiles and index 162 (the Unhealthy band) are shown whatever was fetched |
| AqiPage.PagePollutants | ClimaSense-AI-main/src/pages/AQI.tsx:87-97 | the live tiles when there is live data, else the demo tiles; its contract is carried by DemoModeForced |
| AqiPage.CurrentAqi | ClimaSense-AI-main/src/pages/AQI.tsx:99-100 | the fetched index when there is one, else 162; its contract is carried by DemoModeForced |
| AqiPage.DemoLabelsAgainstStatus | ClimaSense-AI-main/src/pages/AQI.tsx:68-75 | four demo labels agree with the status function; PM10 97 and CO 272 do not |
| AqiPage.HealthAdvice | ClimaSense-AI-main/src/pages/AQI.tsx:205-226 | the two advice texts are those of the band BandIndex counts |
| AqiPage.AdviceFollowsBands | ClimaSense-AI-main/src/pages/AQI.tsx:207-228 | the advice pair is chosen by the same bands as the service's classifiers |
| HealthRecommendation.AllListed | ClimaSense-AI-main/src/components/HealthRecommendation.tsx:21-86 | the rule order lists every rule |
| HealthRecommendation.Card | ClimaSense-AI-main/src/components/HealthRecommendation.tsx:22-87 | the icon, text, type and colour each rule pushes; its contract is carried by FiredUnrolled and GetRecommendations |
| HealthRecommendation.FiredFromMembers | ClimaSense-AI-main/src/components/HealthRecommendation.tsx:21-86 | a rule is pushed from a list exactly when it is in the list and fires |
| HealthRecommendation.Fired | ClimaSense-AI-main/src/components/HealthRecommendation.tsx:21-86 | the pushed rules are exactly those that fire |
| HealthRecommendation.FiredUnrolled | ClimaSense-AI-main/src/components/HealthRecommendation.tsx:21-86 | the pushed rules in order: mask, UV, heat/cold, wind, perfect, sensitive |
| HealthRecommendation.GetRecommendations | ClimaSense-AI-main/src/components/HealthRecommendation.tsx:18-89 | the pushes followed by `slice(0, 3)` give the first three fired rules |
| HealthRecommendation.ShownArePrefix | ClimaSense-AI-main/src/components/HealthRecommendation.tsx:88 | at most three shown, a prefix of the fired rules, all of them when three or fewer fire |
| HealthRecommendation.HeatColdExclusive | ClimaSense-AI-main/src/components/HealthRecommendation.tsx:42-56 | heat and cold never both fire; cold fires exactly below 5 |
| HealthRecommendation.PerfectSensitiveExclusive | ClimaSense-AI-main/src/components/HealthRecommendation.tsx:69-86 | the perfect-day and sensitive-groups rules never both fire |
| HealthRecommendation.MaskImpliesSensitive | ClimaSense-AI-main/src/components/HealthRecommendation.tsx:22-86 | the mask rule implies the sensitive-groups rule |
| HealthRecommendation.DefaultUvBlocks | ClimaSense-AI-main/src/components/HealthRecommendation.tsx:13-76 | with the default UV index neither the UV nor the perfect-day rule fires |
| HealthRecommendation.DefaultsShowFallback | ClimaSense-AI-main/src/components/HealthRecommendation.tsx:11-16 | with every default nothing fires |
| HealthRecommendation.FallbackIffNoneFires | ClimaSense-AI-main/src/components/HealthRecommendation.tsx:116 | the fallback message shows exactly when no rule fires |
| HealthRecommendation.AtMostFiveFire | ClimaSense-AI-main/src/components/HealthRecommendation.tsx:42-86 | at most five rules fire together |
| AirQualityBreakdown.Rows | ClimaSense-AI-main/src/components/AirQualityBreakdown.tsx:18-24 | five rows in fixed order, no SO2 row, all in ug/m3 |
| AirQualityBreakdown.LevelOf | ClimaSense-AI-main/src/components/AirQualityBreakdown.tsx:26-30 | good iff value <= good; moderate iff good < value <= moderate; else unhealthy |
| AirQualityBreakdown.GetStatus | ClimaSense-AI-main/src/components/AirQualityBreakdown.tsx:26-30 | the status text is 'good', 'moderate' or 'unhealthy' under the same conditions |
| AirQualityBreakdown.LevelMonotone | ClimaSense-AI-main/src/components/AirQualityBreakdown.tsx:26-30 | with ordered thresholds a higher reading is never less severe |
| AirQualityBreakdown.BarPercentage | ClimaSense-AI-main/src/components/AirQualityBreakdown.tsx:42 | the bar is the reading as a percentage of the unhealthy threshold below it, and exactly 100 from the threshold on; never negative for a non-negative reading |
| AirQualityBreakdown.BarMonotone | ClimaSense-AI-main/src/components/AirQualityBreakdown.tsx:42 | the bar never shrinks as the reading grows |
| AirQualityBreakdown.RowsOrdered | ClimaSense-AI-main/src/components/AirQualityBreakdown.tsx:19-23 | every row has 0 < good < moderate < unhealthy |
| AirQualityBreakdown.Breakdown | ClimaSense-AI-main/src/components/AirQualityBreakdown.tsx:15-42 | five shown rows, from the components or the defaults; each row's status is GetStatus of its reading and thresholds, and its bar width is BarPercentage of its reading and unhealthy threshold |
| AirQualityBreakdown.DefaultLevels | ClimaSense-AI-main/src/components/AirQualityBreakdown.tsx:15-23 | with the default components PM2.5, PM10 and ozone are moderate, CO and NO2 good |
| AqiBadge.LevelFollowsBands | ClimaSense-AI-main/src/components/AQIBadge.tsx:8-15 | the badge level is the one of the index's band, with cut-offs 50/100/150/200/300 |
| AqiBadge.SharedSuffix | ClimaSense-AI-main/src/components/AQIBadge.tsx:9-14 | in every level the background and text classes share one `aqi-*` suffix |
| AqiBadge.GetAqiLevel | ClimaSense-AI-main/src/components/AQIBadge.tsx:8-15 | `getAQILevel` gives the level of the band BandIndex counts |
| AqiBadge.LabelAgainstCategory | ClimaSense-AI-main/src/components/AQIBadge.tsx:11 | the badge label is the service's category except in band 101-150, where only the wording differs |
| AqiBadge.Render | ClimaSense-AI-main/src/components/AQIBadge.tsx:17-30 | the pill padding follows the size prop with md as default; the label, pill colour and text colour are those of the value's level |
| AqiBadge.DefaultSizeIsMedium | ClimaSense-AI-main/src/components/AQIBadge.tsx:17 | leaving the size out is asking for 'md' |
| LocationCard.GreyIffHidden | ClimaSense-AI-main/src/components/LocationCard.tsx:23-30 | the dot is grey exactly when the index block is not rendered |
| LocationCard.GetAqiColor | ClimaSense-AI-main/src/components/LocationCard.tsx:23-30 | grey exactly when the index block is hidden, and otherwise one of the five band colours |
| LocationCard.ShowsAqiBlock | ClimaSense-AI-main/src/components/LocationCard.tsx:83 | `{aqi && ...}`: the block is rendered for a truthy index; its contract is carried by GreyIffHidden |
| LocationCard.ZeroIsGrey | ClimaSense-AI-main/src/components/LocationCard.tsx:24 | index 0 and a missing index are grey, not green |
| LocationCard.DotFollowsBands | ClimaSense-AI-main/src/components/LocationCard.tsx:25-29 | for a positive index, cut-offs 50/100/150/200 give green, yellow, orange, red, and purple above 200 |
| LocationCard.WithDefaults | ClimaSense-AI-main/src/components/LocationCard.tsx:37-40 | defaults are icon cloudy, '2 min ago' and not favourite; given props are kept |
| WindDirectionRadar.Band | ClimaSense-AI-main/src/components/WindDirectionRadar.tsx:21-26 | the band of a speed is the number of bounds 5/15/25 it has reached |
| WindDirectionRadar.GetWindStrength | ClimaSense-AI-main/src/components/WindDirectionRadar.tsx:21-26 | the strength shown is the entry of the speed's band |
| WindDirectionRadar.StrengthByBand | ClimaSense-AI-main/src/components/WindDirectionRadar.tsx:21-26 | the strength shown is the band's: Light, Moderate, Strong, Very Strong |
| WindDirectionRadar.IntensityBounds | ClimaSense-AI-main/src/components/WindDirectionRadar.tsx:22-25 | the intensity is in (0, 1] and is 1 exactly from 25 on |
| WindDirectionRadar.IntensityMonotone | ClimaSense-AI-main/src/components/WindDirectionRadar.tsx:21-26 | a faster wind never gets a lower intensity or band |
| WindDirectionRadar.DefaultIsLight | ClimaSense-AI-main/src/components/WindDirectionRadar.tsx:9-22 | the default speed 0 shows Light, and the default direction is 0 |
| WindDirectionRadar.CompassLayout | ClimaSense-AI-main/src/components/WindDirectionRadar.tsx:10-19 | eight distinct labels at angles 0, 45, ..., 315 |
| AnimatedWeatherIcon.Select | ClimaSense-AI-main/src/components/AnimatedWeatherIcon.tsx:10-72 | on the lowercased text, exactly one of six drawings: the first test that matches (clear/sun, cloud, rain, thunder/storm, snow), else the plain cloud |
| AnimatedWeatherIcon.SelectIgnoresCase | ClimaSense-AI-main/src/components/AnimatedWeatherIcon.tsx:10 | only the letters matter, not their case |
| AnimatedWeatherIcon.RainBeforeStorm | ClimaSense-AI-main/src/components/AnimatedWeatherIcon.tsx:37-48 | text with rain and storm but no clear, sun or cloud shows rain, while the service classifier calls it a storm |
| Text.Trim | ClimaSense-AI-main/src/lib/config.ts:26 | the trimmed text is a slice of the input with only white space around it and none at either end, and is empty exactly for a blank text |
| Text.TrimIdempotent | ClimaSense-AI-main/src/lib/config.ts:26 | trimming twice is trimming once |
| Text.ToLower | ClimaSense-AI-main/src/services/weatherApi.ts:373 | the same length, each ASCII capital lowered, everything else kept |
| Text.ToLowerIdempotent | ClimaSense-AI-main/src/services/weatherApi.ts:373 | lowercasing twice is lowercasing once |
| Text.BeforeComma | ClimaSense-AI-main/src/services/aqiApi.ts:147 | a prefix without commas that ends at the first comma or at the end |
| Text.ParseInt | ClimaSense-AI-main/src/services/aqiApi.ts:131-135 | NaN exactly when no digit follows the leading white space and optional sign; otherwise the value of the leading digits, negated after a '-' |
| Text.ParseSigned | ClimaSense-AI-main/src/services/aqiApi.ts:131-135 | the decimal rendering of any integer, followed by any text that does not start with a digit, is read back as that integer |
| Js.Round | ClimaSense-AI-main/src/services/weatherApi.ts:134-139 | the nearest integer, halves rounded up |
| Js.RoundMonotone | ClimaSense-AI-main/src/services/weatherApi.ts:252-254 | rounding keeps order |
| Js.MeanBetween | ClimaSense-AI-main/src/services/weatherApi.ts:252-254 | the mean of a non-empty list lies between its minimum and maximum |
| Js.Min | ClimaSense-AI-main/src/services/weatherApi.ts:253 | `Math.min(...xs)` is an element no larger than any other |
| Js.Max | ClimaSense-AI-main/src/services/weatherApi.ts:254 | `Math.max(...xs)` is an element no smaller than any other |
| Js.Filter | ClimaSense-AI-main/src/services/aqiApi.ts:125-159 | the kept elements are exactly those of the list that pass |
| Js.Take | ClimaSense-AI-main/src/services/aqiApi.ts:160 | `slice(0, n)` is the prefix of length min(n, length) |

## Left out

- Network, storage, environment, clock and locale: every `fetch`, `response.json()`, `localStorage`, `import.meta.env`, `Date.now`, `toISOString` and locale formatting call is a parameter. The endpoints and URLs are not modelled.
- A reply whose `json()` throws is the same as a thrown call with that error. The `.catch(() => ({}))` on an error body is a missing error message.
- The `units` argument only selects the scale the provider answers in. The reply already carries it, so it is not a parameter.
- React lifecycle: the `useEffect` of `useSettings` (refilling a blank key from the environment, writing the record back, applying the theme) and re-runs of the `useWeather` effect are left out. So are the absence of stale-request guarding, and console logging.
- Settings.SettingsStore.constructor: requires a stored record that parses. A record that is not JSON makes the source's initializer throw, which is not modelled. Stored fields of the wrong type or `null` are not modelled either.
- IEEE-754 numbers: concentrations and temperatures are exact reals. Infinity is not modelled; NaN only where the source tests for it.
- `parseInt` reads decimal digits only. Hexadecimal prefixes and a digit run that overflows are not modelled.
- Station coordinates are read as numbers, so `parseFloat` of them is the identity. Both time stamps of one run (`new Date().toISOString()`) are the one `now` parameter.
- Lookups of `AQI_BREAKPOINTS` with object-prototype keys such as 'constructor' are treated as missing tables.
- Forecast list entries are read as well-formed. An entry without `main` or `weather` would throw a TypeError inside the try block, and that is not modelled. `timestamp` defaulting to the clock is the `now` parameter.
- `getMarkerTooltip`, `formatAQI`, `debounce`, `getDefaultMapCenter` and `getDefaultMapZoom` in aqiUtils.ts are HTML, formatting, timer or constant helpers with nothing to state.
- Rendering: JSX layout, icons, animation delays and the AQI page's other cards are not modelled.
- AqiApi.AscendingWellFormed and the shape lemmas state the ordering of each table. The EPA standard's exact one-decimal gaps are stated only through GapGives500.

## Findings

| source | as written | input that shows it | evidently intended | confidence | as-written member | corrected member |
|---|---|---|---|---|---|---|
| ClimaSense-AI-main/src/services/aqiApi.ts:88-90 | the CO unit guess divides every value above 50 by 1000, below the top CO band's upper end of 50.4 | `calculateAQI('co', 50.4)` gives 1 instead of 500 | divide only values above the table's top end, 50.4, so every band's upper end gives its upper index | not executed | AqiApi.CoTopBandCeilingMisread | AqiApi.CorrectedBandEnds |

`calculateAQI` has no caller in the repository, so no other part of the model depends on the choice. `AqiApi.CalculateAqi` keeps the code as written, and `AqiApi.AqiOfCorrected` is the corrected index.
