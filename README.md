# Stem splitter players and pricing pages, modelled in Dafny

This project models the two pieces of logic in the front end of an audio-services web site (stem splitting, chord extraction, mixing and mastering) that compute something:

- **The basic splitter page's players** (`app/services/basicSplitter/BasicSplitterClient_reserve_26_april.tsx`). The user uploads one file. A simulated split then reuses that file's URL for the vocals, drums, bass and others stems. Five players are shown: the original and the four stems. Each player keeps a volume (0–100), an `isPlaying` flag and an `isPaused` flag. Three handlers drive it: the play/pause button, the volume slider and the audio element's end-of-track callback. The page declares these three values five times over (BasicSplitterClient_reserve_26_april.tsx:32-48), and repeats the call sites, sliders and inline `onEnded` closures once per player; `handlePlayPause` and `handleVolumeChange` are written once and take a player's ref, state and setters as parameters (:75-117). Here the per-player logic is written once, as step functions on a `Track` record (module `Splitter`). The page is a class `BasicSplitter` that holds a `map<TrackId, Track>`, and each handler method replaces the targeted player's entry in the `tracks` map.
- **The pricing page with a billing toggle** (`app/pricing/PricingClient_25_april_reserve.tsx`), module `PricingClient`. It has a static region → plan → (price, features) table and a fixed plan order. The price is picked by billing interval, and per-day plans ignore the interval. Best-value plans get a promotional prefix. A browser-language heuristic pre-selects the India region.
- **The pricing page with a region switch** (`app/pricing/price_last_06_03.tsx`), module `PriceList`. It has a static table of three plans per region. Each price gets a currency-symbol prefix and each duration a "/" suffix. Feature keys become labels by inserting a space before every upper-case letter.

What is proved:

- **Per-call properties** of every handler: play from volume 0 snaps to 50, pause keeps the volume, setting volume 0 pauses, end of track resets to paused at volume 0, and a missing audio element makes play/pause a no-op.
- **Invariants over any session of events from the initial state**: `isPlaying == !isPaused`, and a playing track has volume above 0.
- **Independence**: a player's state after any session depends only on its own events.
- **Pricing lookups**: the plan order and price selection, the best-value prefix, and the concrete prices and feature values the page shows.
- **The locale heuristic**, stated character by character.
- **The label transform**: its length, its shape (every capital letter is preceded by a space), and a round trip (removing the inserted spaces gives back the key).

Modules: `Wrappers` (Option), `Regions` (the region type both pricing pages share), `Splitter`, `PricingClient`, `PriceList`.

Facts about the code that shape the model:

- The page keeps both `isPlaying` and `isPaused` per player (BasicSplitterClient_reserve_26_april.tsx:38-48), and the model keeps both.
- Any nonzero slider value starts playback, including a value lower than the current one (BasicSplitterClient_reserve_26_april.tsx:105-116).
- `Region` has exactly two values, international and India, as the pages' region state does.
- `handleProcess` has no guard of its own against a missing upload. The "Start Splitting" button is only rendered after an upload. Called without one, it would set every stem to `null`, and `Splitter.BasicSplitter.HandleProcess` models exactly that.

## Model

| member | source | states |
|---|---|---|
| Splitter.PlayPause | app/services/basicSplitter/BasicSplitterClient_reserve_26_april.tsx:75-95 | Without an audio element nothing changes. A paused track starts playing (`isPlaying` true, `isPaused` false), and volume 0 snaps to 50. A playing track pauses and keeps its volume. A coherent track leaves the toggle consistent, and consistency is preserved. |
| Splitter.VolumeChange | app/services/basicSplitter/BasicSplitterClient_reserve_26_april.tsx:97-117 | The new value is always stored. With the audio element, 0 forces paused/not playing and any other value forces playing/not paused. Without it, both flags are untouched. A slider value keeps the track consistent when the element is there. |
| Splitter.Ended | app/services/basicSplitter/BasicSplitterClient_reserve_26_april.tsx:296-300 | End of track leaves the player paused, not playing, at volume 0, whatever its prior volume. |
| Splitter.Apply | app/services/basicSplitter/BasicSplitterClient_reserve_26_april.tsx:231-239 | One event changes only the player it targets, because each call site passes only its own player's state and setters. |
| Splitter.Run | app/services/basicSplitter/BasicSplitterClient_reserve_26_april.tsx:230-342 | A session of events keeps a state for each of the five players. |
| Splitter.InitialBoardComplete | app/services/basicSplitter/BasicSplitterClient_reserve_26_april.tsx:32-48 | The initial state (volume 0, paused, not playing) covers all five players and is consistent. |
| Splitter.RunProjection | app/services/basicSplitter/BasicSplitterClient_reserve_26_april.tsx:231-342 | After any session, a player's state equals its start state with only its own events applied. |
| Splitter.RunLeavesOthersAlone | app/services/basicSplitter/BasicSplitterClient_reserve_26_april.tsx:335-342 | A session that never targets a player leaves that player unchanged. |
| Splitter.RunKeepsConsistent | app/services/basicSplitter/BasicSplitterClient_reserve_26_april.tsx:75-117 | With every audio element mounted, every handler preserves `isPlaying == !isPaused` and `isPlaying ⇒ volume > 0` over any session of slider values in 0..100. |
| Splitter.ReachableConsistent | app/services/basicSplitter/BasicSplitterClient_reserve_26_april.tsx:32-48 | Every state reachable from the initial one satisfies both invariants. |
| Splitter.UnmountedSliderCanSilenceAPlayingTrack | app/services/basicSplitter/BasicSplitterClient_reserve_26_april.tsx:104-116 | Without the audio element, setting volume 0 on a playing track stores 0 and leaves it playing, so the invariant needs the element. |
| Splitter.BasicSplitter.SourceOf | app/services/basicSplitter/BasicSplitterClient_reserve_26_april.tsx:295 | The `src` of each player's audio element (also :398, :499, :600, :701). `HandleProcess` proves that after the split every player plays the uploaded URL. |
| Splitter.BasicSplitter.PlayersShown | app/services/basicSplitter/BasicSplitterClient_reserve_26_april.tsx:220 | The render condition of the players: uploaded, not processing, vocals source present. `HandleProcess` proves it holds exactly when a file was uploaded. |
| Splitter.BasicSplitter.constructor | app/services/basicSplitter/BasicSplitterClient_reserve_26_april.tsx:9-48 | Starts not uploaded and not processing, with no URLs and every player silent and paused. |
| Splitter.BasicSplitter.HandleUpload | app/services/basicSplitter/BasicSplitterClient_reserve_26_april.tsx:50-57 | Changes state only when a file is present. In that case the original URL becomes the file's object URL and `uploaded` becomes true. |
| Splitter.BasicSplitter.HandleProcess | app/services/basicSplitter/BasicSplitterClient_reserve_26_april.tsx:59-72 | All four stems (and so every player's source) become the original upload URL, and processing ends false. The players are then shown exactly when a file was uploaded. Nothing else changes. |
| Splitter.BasicSplitter.HandlePlayPause | app/services/basicSplitter/BasicSplitterClient_reserve_26_april.tsx:75-95 | Updates only the targeted player, by `PlayPause`, and keeps the invariants. |
| Splitter.BasicSplitter.HandleVolumeChange | app/services/basicSplitter/BasicSplitterClient_reserve_26_april.tsx:97-117 | Updates only the targeted player, by `VolumeChange`, and keeps the invariants when the element is mounted. The value is in 0..100, as the range input's min and max guarantee. |
| Splitter.BasicSplitter.HandleEnded | app/services/basicSplitter/BasicSplitterClient_reserve_26_april.tsx:296-300 | Updates only the ended player, by `Ended`. |
| PricingClient.Features | app/pricing/PricingClient_25_april_reserve.tsx:37-49 | Eleven feature keys in the object's insertion order. The four values that vary by plan sit under Maximum Song Length, Number of Mastered Song Downloads, Stem Download and Chords Download (the last entry). |
| PricingClient.FeatureKeysDistinct | app/pricing/PricingClient_25_april_reserve.tsx:37-49 | No two features of a plan share a key. |
| PricingClient.PricingData | app/pricing/PricingClient_25_april_reserve.tsx:32-153 | Six entries, one per region and plan. Each has the plan's name, a per-day price string exactly for Ultra Lite and a yearly/monthly pair otherwise, the best-value flag exactly on Pro, and the eleven features ending in Chords Download. |
| PricingClient.Plans | app/pricing/PricingClient_25_april_reserve.tsx:155-160 | Every region lists exactly [Ultra Lite, Lite, Pro] in that order. Ultra Lite is priced per day and the others by interval. Only Pro is flagged best value. |
| PricingClient.SelectedPrice | app/pricing/PricingClient_25_april_reserve.tsx:214-221 | A plain-string price is shown whatever the billing. An interval-keyed price shows the entry for the selected interval. |
| PricingClient.PriceDisplay | app/pricing/PricingClient_25_april_reserve.tsx:214-224 | A best-value plan's price is "Best Value for Money - " followed by the selected price. Other plans show the selected price unprefixed. |
| PricingClient.Cards | app/pricing/PricingClient_25_april_reserve.tsx:213-224 | Three cards in plan order with the plans' names and features. Ultra Lite shows its per-day string. Lite shows the selected entry. Pro shows the selected entry behind the best-value label. |
| PricingClient.FeatureValue | app/pricing/PricingClient_25_april_reserve.tsx:244-262 | A key has a value exactly when some feature carries that key, and the value returned is listed under it. |
| PricingClient.FeatureValueAt | app/pricing/PricingClient_25_april_reserve.tsx:244-262 | The first feature with a key decides its value. |
| PricingClient.ChordsDownloadOf | app/pricing/PricingClient_25_april_reserve.tsx:57-68 | Each plan's Chords Download value is the one its table entry gives. |
| PricingClient.InternationalYearlyPro | app/pricing/PricingClient_25_april_reserve.tsx:71-77 | International + yearly shows Pro as "Best Value for Money - $14.99". |
| PricingClient.IndiaMonthlyLite | app/pricing/PricingClient_25_april_reserve.tsx:111-129 | India + monthly shows Lite at "Rs.190/month" with Chords Download "20 Tracks". International Lite has "50 Tracks per month". |
| PricingClient.ToLower | app/pricing/PricingClient_25_april_reserve.tsx:15 | Same length, each character lower-cased, no capital letter left. |
| PricingClient.Includes | app/pricing/PricingClient_25_april_reserve.tsx:16 | True exactly when the needle occurs at some position of the string. |
| PricingClient.SuggestsIndia | app/pricing/PricingClient_25_april_reserve.tsx:15-16 | True exactly when two adjacent characters of the language tag lower-case to "i" then "n". |
| PricingClient.LanguageExamples | app/pricing/PricingClient_25_april_reserve.tsx:11-18 | "en-IN" and "hi-IN" select India. "en-US" and "hi" do not. |
| PricingClient.PricingPage.constructor | app/pricing/PricingClient_25_april_reserve.tsx:7-9 | Region defaults to international and billing to yearly. |
| PricingClient.PricingPage.DetectRegion | app/pricing/PricingClient_25_april_reserve.tsx:13-20 | The region becomes India exactly when a window exists and the lower-cased language contains "in". Otherwise it keeps its current value. Billing is untouched. |
| PricingClient.PricingPage.SelectBilling | app/pricing/PricingClient_25_april_reserve.tsx:188-207 | The billing buttons set the interval and leave the region. |
| PricingClient.PricingPage.Render | app/pricing/PricingClient_25_april_reserve.tsx:213-224 | The loop over the plans renders exactly `Cards` for the current selection. |
| PriceList.Features | app/pricing/price_last_06_03.tsx:14-20 | Every plan lists the keys tracks, songLength, downloads, stemDownload, chordsDownload in that order. |
| PriceList.PricingPlans | app/pricing/price_last_06_03.tsx:8-85 | Each region lists exactly three plans, Ultra Lite, Lite, Pro in that order, each with the five feature keys. |
| PriceList.LiteChordsDownloads | app/pricing/price_last_06_03.tsx:22-71 | India Lite's fifth feature is chordsDownload "20/month", where international Lite's is chordsDownload "50/month". |
| PriceList.CurrencySymbol | app/pricing/price_last_06_03.tsx:148 | One character: the rupee sign exactly for India, "$" exactly for any other region. |
| PriceList.PriceText | app/pricing/price_last_06_03.tsx:148 | The price is the currency symbol followed by the plan's price unchanged. |
| PriceList.DurationText | app/pricing/price_last_06_03.tsx:151 | The suffix is "/" followed by the plan's duration unchanged. |
| PriceList.CurrencySymbolAsWritten | app/pricing/price_last_06_03.tsx:148 | The symbol as the source text spells it: three characters for India, "$" otherwise. |
| PriceList.PriceTextAsWritten | app/pricing/price_last_06_03.tsx:148 | For every region and plan, the price as the source text renders it is the as-written symbol (three characters for India) followed by the plan's price unchanged. |
| PriceList.RupeeMisencoded | app/pricing/price_last_06_03.tsx:148 | The source's India symbol is the rupee sign's UTF-8 bytes decoded as Windows-1252, so Ultra Lite shows "â‚¹99" instead of "₹99". |
| PriceList.Label | app/pricing/price_last_06_03.tsx:174 | The label is the key's length plus the number of capital letters long, and never starts with a capital. |
| PriceList.UnspaceLabel | app/pricing/price_last_06_03.tsx:174 | Only spaces are inserted: removing the space before each capital gives back the key, with every other character in order. |
| PriceList.LabelSpacesUppers | app/pricing/price_last_06_03.tsx:174 | Every capital letter in a label has a space right before it. |
| PriceList.LabelAppend | app/pricing/price_last_06_03.tsx:174 | The transform works character by character: the label of a concatenation is the concatenation of the labels. |
| PriceList.LabelWithoutUppers | app/pricing/price_last_06_03.tsx:174 | A key without capital letters is rendered unchanged. |
| PriceList.CamelLabel | app/pricing/price_last_06_03.tsx:174 | A two-word camelCase key gets exactly one space, before its second word. |
| PriceList.LowerCaseKeyLabels | app/pricing/price_last_06_03.tsx:15-17 | "tracks" and "downloads" are rendered unchanged. |
| PriceList.CamelCaseKeyLabels | app/pricing/price_last_06_03.tsx:16-19 | "songLength", "stemDownload" and "chordsDownload" become "song Length", "stem Download" and "chords Download". |
| PriceList.SongLengthLabel | app/pricing/price_last_06_03.tsx:16 | "songLength" becomes "song Length". |
| PriceList.StemDownloadLabel | app/pricing/price_last_06_03.tsx:18 | "stemDownload" becomes "stem Download". |
| PriceList.ChordsDownloadLabel | app/pricing/price_last_06_03.tsx:19 | "chordsDownload" becomes "chords Download". |
| PriceList.Cards | app/pricing/price_last_06_03.tsx:137-177 | Three cards in table order. Each has the plan's name, its price behind the currency symbol, its "/duration" suffix, and for every feature, in order, the label of its key next to its value. The price uses the corrected rupee sign (`PriceText`), not the three characters line 148 produces (see Findings). |
| PriceList.PriceListPage.constructor | app/pricing/price_last_06_03.tsx:6 | The region defaults to international. |
| PriceList.PriceListPage.SelectRegion | app/pricing/price_last_06_03.tsx:112-131 | The region buttons set the selected region. |

## Left out

- The 3-second timer in `handleProcess` (BasicSplitterClient_reserve_26_april.tsx:62-71). `Splitter.BasicSplitter.HandleProcess` takes the start and the timer's completion as one atomic step. So the window in which `processing` is true, and any interleaving of other handlers during it, are not modelled.
- `URL.createObjectURL`: its result is a parameter of `HandleUpload`, and URLs are opaque strings.
- `audioRef.current`: whether a player's audio element is mounted is a boolean parameter `hasRef`. The event-session lemmas assume every element is mounted, as it is whenever the controls are rendered.
- `audioRef.current.play()` / `pause()`: these are media calls that change no page state.
- The DOM volume assignment `value / 100` and the `useEffect` that syncs it (BasicSplitterClient_reserve_26_april.tsx:119-143): these are floating-point writes to the media element, not page state.
- `window.navigator.language` becomes a parameter, and None stands for no window. Lower-casing covers ASCII letters only: the language tags it reads are ASCII, and full Unicode case mapping is not modelled.
- All JSX markup, SVG icons, `<style jsx>` CSS, background videos and download anchors.
- The CSS `capitalize` class on the feature label: only the regex space insertion is modelled.
- app/pricing/pricing_05_03_v2.tsx and app/pricing/price_05_03.tsx: each is only a constant plan array rendered directly, with nothing to compute.
- The chords and mixing/mastering pages, including the one network call to a processing endpoint, are not part of this model.

## Findings

| source | as written | input that shows it | evidently intended | confidence | as-written member | corrected member |
|---|---|---|---|---|---|---|
| app/pricing/price_last_06_03.tsx:148 | The India currency prefix is the three characters "â‚¹" (bytes C3 A2 E2 80 9A C2 B9). These are the rupee sign's UTF-8 bytes decoded as Windows-1252; `PriceList.RupeeMisencoded` shows this. | region India, plan Ultra Lite: the price shows as "â‚¹99" | "₹99", the rupee sign U+20B9 before the price | medium (the stored text is certain; how the page is served was not checked), not executed | PriceList.PriceTextAsWritten | PriceList.PriceText |
