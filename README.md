# Journey attribution dashboard — verified model

The dashboard (`src/App.tsx`) fetches grouped customer journeys from a
backend and shows them in a table. Each row is one distinct path of
marketing touchpoints. It shows:

- the touchpoints as coloured badges joined by arrows;
- the number of sales attributed to that path;
- the touchpoint count.

This project models the three pieces of logic in that file.

- **The channel classifier `getChannelStyle`** (modules `Text` and `Channel`).
  - A touchpoint's free-text source label is lower-cased and trimmed.
  - It is then tested against keyword groups in a fixed order: "google"; "facebook" or "instagram"; "organic" or "organico"; "direct" or "site"; "mail".
  - The first group that matches picks one of five badge styles. A label that matches no group gets the grey default.
  - `Text` models `toLowerCase` (ASCII letters), `trim` (the ECMAScript white-space and line-terminator characters) and `includes`.
  - `Channel` has the category, the style table, the chain of tests and an independent rule-table reading of it (`FirstMatch`).
- **The fetch state `fetchData`** (modules `Journeys` and `Fetch`).
  - The page holds a journey list and a loading flag, as the class `Fetch.Dashboard`.
  - A fetch raises the flag. When the request settles it replaces the list if the response says `result`, and keeps the list otherwise (a refused response or a thrown error). On every path it lowers the flag.
  - The request itself is an `Outcome` parameter.
- **The render decisions** (module `Render`).
  - The page is a pure function of the list and the flag: the loading view, or the table with one row per journey plus the empty-state notice when the list is empty.
  - Each path shows its badges with an arrow after every badge but the last.

`ChannelExamples` and `Scenarios` prove the classifier and the whole fetch-then-render run on particular labels and responses.

The organic group's second keyword, "organico", suggests that Portuguese
labels were meant to match. That test never decides anything, because every
label containing "organico" already contains "organic"
(`Channel.OrganicoRedundant`). The accented spelling "Orgânico" and the
Portuguese word "Direto" still fall through to the grey default:

- "Orgânico" lower-cases to "orgânico", and with the accented "â" it contains neither "organic" nor "organico" (`ChannelExamples.OrganicoWithAccent`).
- "Direto" contains neither "direct" nor "site" (`ChannelExamples.Direto`).

## Model

| member | source | states |
|---|---|---|
| Text.Lower | src/App.tsx:26 | lower-casing keeps the length and maps each character on its own, changing only the upper-case ASCII letters |
| Text.TrimStartDrops | src/App.tsx:26 | the part `trim` drops at the start is all white space, and what it keeps is a suffix that does not start with white space |
| Text.TrimEndDrops | src/App.tsx:26 | the part `trim` drops at the end is all white space, and what it keeps is a prefix that does not end with white space |
| Text.TrimFramed | src/App.tsx:26 | the trimmed label is a slice of the label with only white space around it, and it has no white space at either end |
| Text.ContainsIffOccurs | src/App.tsx:27-31 | `includes` holds exactly when the word occurs at some index of the label |
| Text.ContainsFramed | src/App.tsx:26-31 | white space around a label neither creates nor removes an occurrence of a non-empty word that has no white space |
| Text.LowerIdempotent | src/App.tsx:26 | lower-casing twice is lower-casing once |
| Text.LowerSlice | src/App.tsx:26 | lower-casing commutes with taking a slice |
| Text.Absent | src/App.tsx:27-31 | a word with a letter the label lacks is not found in it |
| Text.ContainsSpliced | src/App.tsx:27-31 | a word placed anywhere inside a label is found in it |
| Channel.FirstMatchHit | src/App.tsx:27-31 | in a rule table read in order, the first group with a keyword in the label decides the category, whatever the later groups say |
| Channel.FirstMatchNone | src/App.tsx:32 | when no group of the table fires, the result is the default |
| Channel.DecideFollowsRules | src/App.tsx:27-32 | the chain of `includes` tests is the five-group rule table read first match wins |
| Channel.ClassifyFollowsRules | src/App.tsx:25-33 | the classifier is the rule table read first match wins, applied to the lower-cased label |
| Channel.ClassifyIgnoresTrim | src/App.tsx:26-31 | trimming never changes the category: deciding on the lower-cased label without trimming gives the same result |
| Channel.ClassifyPadded | src/App.tsx:26 | a label and the same label with white space around it get the same category |
| Channel.ClassifyTrimIdempotent | src/App.tsx:26 | classifying the trimmed label gives the same category as classifying the label |
| Channel.ClassifyIgnoresCase | src/App.tsx:26 | two labels that differ only in the case of their ASCII letters get the same category |
| Channel.DecideDefault | src/App.tsx:27-32 | the chain ends in the default exactly when none of the eight keywords occurs |
| Channel.ClassifyDefault | src/App.tsx:32 | a label gets the grey default exactly when its lower-cased form contains none of the eight keywords |
| Channel.GoogleWins | src/App.tsx:27 | a label containing "google" is a search engine, whatever else it contains |
| Channel.DirectBeatsMail | src/App.tsx:30-31 | a label with "direct" or "site" and also "mail", and no keyword of an earlier group, gets the direct style, not the e-mail style |
| Channel.OrganicoSubsumed | src/App.tsx:29 | every label containing "organico" already contains "organic" |
| Channel.OrganicoRedundant | src/App.tsx:29 | removing "organico" from the organic group leaves the classification of every label unchanged |
| Channel.DecideIgnoresFrame | src/App.tsx:26-31 | white space around the lower-cased label never changes the chain's decision |
| Channel.KeywordsOfRules | src/App.tsx:27-31 | the eight keywords are exactly the keywords of the five groups, in table order |
| Channel.KeywordsAreWords | src/App.tsx:27-31 | every keyword is non-empty and has no white space |
| ChannelExamples.GoogleCpc | src/App.tsx:27 | "Google / cpc" is a search engine |
| ChannelExamples.InstagramAds | src/App.tsx:28 | "Instagram Ads" is social |
| ChannelExamples.OrganicLabel | src/App.tsx:29 | "organic" is organic |
| ChannelExamples.SiteLabel | src/App.tsx:30 | "site" is direct |
| ChannelExamples.DirectLabel | src/App.tsx:30 | "Direct" is direct |
| ChannelExamples.GoogleLabel | src/App.tsx:27 | "Google" is a search engine |
| ChannelExamples.EmailMarketing | src/App.tsx:31 | "E-mail Marketing" gets the e-mail style |
| ChannelExamples.SiteAndMail | src/App.tsx:30-31 | "site / e-mail" contains "mail" but is direct, because the direct group comes first |
| ChannelExamples.EmptyLabel | src/App.tsx:32 | the empty label gets the default |
| ChannelExamples.Tiktok | src/App.tsx:32 | "tiktok" gets the default |
| ChannelExamples.OrganicoWithAccent | src/App.tsx:26-32 | "Orgânico" gets the default, not the organic style |
| ChannelExamples.Direto | src/App.tsx:30-32 | "Direto" gets the default, not the direct style |
| ChannelExamples.GoogleAnyCase | src/App.tsx:26-27 | "GOOGLE ads" and "google ADS" get the same category, a search engine |
| Fetch.SettleIdempotent | src/App.tsx:44-50 | settling the same outcome twice is settling it once |
| Fetch.SettleAllLastWins | src/App.tsx:39-54 | after fetches one after the other, the list is the data of the last accepted response |
| Fetch.SettleAllNoneAccepted | src/App.tsx:44-50 | after fetches none of which was accepted, the list is the one from before them |
| Fetch.Dashboard.constructor | src/App.tsx:36-37 | the page starts with no journeys and the loading flag up |
| Fetch.Dashboard.Start | src/App.tsx:40 | the start of a fetch raises the loading flag and leaves the list alone |
| Fetch.Dashboard.Finish | src/App.tsx:41-53 | once the request settles, the flag is down on every path; the list becomes the response data exactly when the response is accepted, and is unchanged otherwise |
| Fetch.Dashboard.FetchData | src/App.tsx:39-54 | a whole fetch ends with the flag down and the list settled by the outcome |
| Render.ExactlyOneView | src/App.tsx:75-141 | the loading view shows exactly while loading, the empty-state notice exactly when not loading with no journeys, the rows exactly when not loading with some; exactly one of the three shows, and the refresh icon spins exactly while loading |
| Render.RowsFollowJourneys | src/App.tsx:102-131 | the table has one row per journey in list order, with the journey's id as key, its quantity and touchpoints as sent, and one badge per step carrying the step's label and the classifier's style for it |
| Render.JoinedAlternates | src/App.tsx:107-121 | steps with an arrow after each but the last read badge, arrow, badge, and so on, with 2n - 1 items |
| Render.JoinedArrowCount | src/App.tsx:117-119 | steps with an arrow after each but the last show n - 1 arrows |
| Render.PathAlternates | src/App.tsx:107-121 | a path of n >= 1 steps shows its badges in order at the even places and an arrow at every odd place, so none after the last badge |
| Render.ArrowCount | src/App.tsx:117-119 | a path of n steps shows n - 1 arrows, and an empty path shows none |
| Scenarios.OneJourney | src/App.tsx:39-131 | after a fetch accepted with one journey Google then Direct, the page shows one row with the two badges in their styles joined by one arrow, and the two numbers as sent |
| Scenarios.GoogleThenDirect | src/App.tsx:107-121 | the path Google then Direct shows the search-engine badge with an arrow, then the direct badge without one |
| Scenarios.TwoSteps | src/App.tsx:117 | in a two-step path only the first badge is followed by an arrow |
| Scenarios.NoJourneys | src/App.tsx:44-141 | an accepted response with no journeys shows the empty table and the empty-state notice |
| Scenarios.Refused | src/App.tsx:44 | a refused response shows the page as it was before, with loading over |

## Left out

- The HTTP request, its URL and the decoding of the JSON body are not modelled. A fetch's result is an `Outcome` parameter: a response body, or a thrown error of any kind.
- The model assumes the response body has the declared `ApiResponse` shape: a boolean `result`, a list `data`, and steps whose sources are strings. The dashboard does not check this. It accepts any truthy `result` (src/App.tsx:44) and stores whatever `data` holds (src/App.tsx:46). With a truthy `result` and no `data` list, the next render's `journeys.map` (src/App.tsx:102) throws.
- React's state hooks, the mount effect and the refresh button's wiring are not modelled. The class `Fetch.Dashboard` stands for the two state variables, and a refresh is a call of `FetchData`.
- Overlapping fetches are not modelled, because that needs asynchronous interleaving. Two fetches in flight could settle in either order and lower the flag while one is still pending. Only fetches one after the other are modelled (`SettleAll`).
- The error log (`console.error`) is left out because it has no effect on the state.
- The markup, icons, headings and the layout class names around the badge are left out. Only the six badge style strings are modelled.
- Text.Lower: models only ASCII letters and keeps every other character unchanged. JavaScript's `toLowerCase` also folds non-ASCII letters. That can change a category: the Kelvin sign U+212A lower-cases to ASCII "k", so "FACEBOO\u212A" is social in the dashboard but the default in the model. It can also change the length: "İ" lower-cases to two characters.
- The sale and touchpoint counts are modelled as unbounded integers rather than JavaScript numbers. The page only displays them.
- Nothing ties the touchpoint count to the length of the path, in the code or in the model.
- The six style strings are not proved pairwise distinct. Each category maps to its own literal string, as in the source.
