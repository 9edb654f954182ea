# Verified model of the interactive parts of noahgorstein.com

The site is a statically generated blog and project portfolio. This project models its few pieces of client-side logic in Dafny:

- **Star-count fetcher** (`src/helpers/github.ts`, module `Github`). `fetchStars` asks the GitHub API for a repository's `stargazers_count`. It never throws. A network failure, a non-OK status, an unparseable body or a non-numeric field all produce 0. The network is abstracted as a `Response` value: `NetworkError`, or `Status(ok, body)` whose body is `Malformed`, `FieldNotNumber` or `Num(n)`. `Classify` models the `try` block and its throw points, and `FetchStars` models the `catch`.
- **Project grid** (`src/components/ProjectGrid.tsx`, module `Projects`). The component starts with an empty `projectData`. It copies every project with `stars` replaced by the count fetched for `noahgorstein/<title>`. It sorts the copies in place with `compareStars`, so the most stars come first. Then it sets `projectData` once. The class `ProjectGrid` holds the `projects` prop and the `projectData` state. `FetchData` runs the batch sequentially (`EnrichBatch`), copies it into an array, and sorts that array with an insertion sort (`SortByStars`).
- **Repository link** (`src/components/GitHubRepoLink.tsx`, module `RepoLink`). The component shows a supplied count only when it is truthy. An undefined count or a 0 is looked up under `username/repo`. The link points at `https://github.com/username/repo`, and `username` defaults to `noahgorstein`. The grid hands each project's `stars ?? 0` to this component. So a project whose count came back as 0 is looked up a second time, under the same key (`Projects.ZeroCountLookedUpAgain`).
- **Theme selector** (`src/components/ThemeSelect.tsx`, module `Theme`). A `Page` object holds the document element's class set, its `data-theme` attribute and the `localStorage` map. `ApplyTheme` changes them step by step, as the source does, and is proved equal to the pure `Applied`. The `ThemeSelect` class holds the `theme` state. Its constructor is the initial-theme lambda, and `HandleThemeChange` is the change handler.

`Wrappers` holds the `Option` type used for JavaScript's `undefined`/`null`.

The code fetches a count for every project, even one whose record already has `stars`, and overwrites that value (`src/components/ProjectGrid.tsx:29-30`). `Projects.EnrichIgnoresKnownStars` states this.

## Model

| member | source | states |
|---|---|---|
| `Github.RequestUrl` | src/helpers/github.ts:10 | the URL is the API base followed by the unvalidated repository string, which can be read back from it |
| `Github.RequestUrlInjective` | src/helpers/github.ts:10 | two different repositories never share a request URL |
| `Github.Classify` | src/helpers/github.ts:9-19 | the outcome is a count exactly for an OK status whose field is a number, and that count is the field; a network failure and a non-OK status are reported as such |
| `Github.FetchStars` | src/helpers/github.ts:8-23 | total: returns the body's number for an OK response with a numeric field, and 0 for every other response |
| `Github.StarsOf` | src/helpers/github.ts:8-10 | `fetchStars(repo)` is the number the network sends for the request URL of `repo` when that answer is OK and numeric, and 0 otherwise |
| `Github.ZeroIsFailureOrNoStars` | src/helpers/github.ts:16-22 | a result of 0 means either a failed lookup or a real count of 0, and the result does not tell them apart |
| `Github.NonzeroCameFromServer` | src/helpers/github.ts:11-19 | any nonzero result is the number an OK response carried; no range is claimed |
| `RepoLink.Username` | src/components/GitHubRepoLink.tsx:18 | `username` defaults to `noahgorstein` and is otherwise the given name |
| `RepoLink.HrefNamesLookupKey` | src/components/GitHubRepoLink.tsx:21-26 | the link is `https://github.com/` followed by exactly the key used for the star lookup |
| `RepoLink.Source` | src/components/GitHubRepoLink.tsx:20-22 | a truthy count is shown unchanged with no lookup; an undefined or 0 count is looked up under `username/repo` |
| `RepoLink.DisplayedStars` | src/components/GitHubRepoLink.tsx:20-31 | the rendered count is the supplied one when truthy, else whatever the star hook currently holds |
| `Projects.CompareStars` | src/components/ProjectGrid.tsx:21-23 | negative exactly when `a` has more stars, zero on equal counts, positive when `b` has more; a missing count counts as 0 |
| `Projects.CompareStarsAntisymmetric` | src/components/ProjectGrid.tsx:21-23 | swapping the arguments negates the comparison |
| `Projects.Enrich` | src/components/ProjectGrid.tsx:29-30 | the copy keeps `slug`, `title` and `description` and carries the count fetched for `noahgorstein/<title>` |
| `Projects.EnrichIgnoresKnownStars` | src/components/ProjectGrid.tsx:29-30 | a count the input record already had has no effect on its copy |
| `Projects.EnrichAll` | src/components/ProjectGrid.tsx:27-32 | same length as the input, and element i is the enriched copy of project i |
| `Projects.EnrichBatch` | src/components/ProjectGrid.tsx:27-32 | the batch of lookups produces exactly the enriched list |
| `Projects.SortedByComparator` | src/components/ProjectGrid.tsx:21-23 | being sorted by star count is the same as `compareStars` never being positive for a pair in order |
| `Projects.SortedByStarsAdjacent` | src/components/ProjectGrid.tsx:33 | being sorted is the same as every adjacent pair having non-increasing counts |
| `Projects.SortByStars` | src/components/ProjectGrid.tsx:33 | the in-place sort leaves the array ordered by non-increasing star count and a permutation of what it was |
| `Projects.ReorderedEnrichment` | src/components/ProjectGrid.tsx:27-33 | any permutation of the enriched list has the input's length, and every record in it is the enriched copy of some input record and has a count |
| `Projects.ProjectGrid.constructor` | src/components/ProjectGrid.tsx:20 | before enrichment completes, `projectData` is empty |
| `Projects.ProjectGrid.FetchData` | src/components/ProjectGrid.tsx:26-35 | the final `projectData` is a permutation of the enriched list, sorted non-increasing by stars, as long as `projects`, and made only of enriched copies |
| `Projects.ZeroCountLookedUpAgain` | src/components/ProjectGrid.tsx:58 | the link receives `stars ?? 0`; it looks the project up again exactly when the fetched count was 0, under the same key, and otherwise shows the fetched count |
| `Theme.Lookup` | src/components/ThemeSelect.tsx:14-18 | `Map.get` finds an icon exactly when some entry has that name, and the icon belongs to such an entry |
| `Theme.IconForKnownThemes` | src/components/ThemeSelect.tsx:14-18 | `themeOptions` knows exactly `light`, `dark` and `eighties` |
| `Theme.DataThemeFor` | src/components/ThemeSelect.tsx:24-36 | the `switch` sets `data-theme` exactly for the three menu themes |
| `Theme.GetItem` | src/components/ThemeSelect.tsx:45 | `getItem` gives the stored value, or nothing for a missing key |
| `Theme.Applied` | src/components/ThemeSelect.tsx:20-39 | `dark` is present iff the theme is `dark` and `eighties` iff it is `eighties`, never both; other classes are unchanged; `data-theme` becomes `github-dark`, `github-light` or `synthwave-84` and is untouched for an unknown theme; storage maps `theme` to the value, even an unknown one, and no other key changes |
| `Theme.AppliedIdempotent` | src/components/ThemeSelect.tsx:20-39 | applying a theme twice gives the same classes, attribute and storage as applying it once |
| `Theme.ApplyTheme` | src/components/ThemeSelect.tsx:20-39 | the remove/add/setAttribute/setItem steps leave the page exactly in the state `Applied` describes |
| `Theme.InitialTheme` | src/components/ThemeSelect.tsx:43-49 | the stored value if it is non-empty, else `dark` or `light` from the system preference; never empty; never `eighties` unless `eighties` was stored |
| `Theme.FallbackIsAnOption` | src/components/ThemeSelect.tsx:46-48 | with nothing stored, the initial theme is a menu entry |
| `Theme.ReloadRestoresTheme` | src/components/ThemeSelect.tsx:38-49 | after a non-empty theme is applied, a reload starts with that theme whatever the system preference |
| `Theme.ThemeSelect.constructor` | src/components/ThemeSelect.tsx:43-49 | the initial theme comes from storage and the system preference, and mounting changes no class, attribute or storage entry |
| `Theme.ThemeSelect.HandleThemeChange` | src/components/ThemeSelect.tsx:51-54 | the in-memory theme becomes the new value, the page is updated as by `applyTheme`, and the stored `theme` equals the in-memory one |

## Left out

- The network call, `response.json()` and `console.error` logging are I/O. The response is an abstract `Response` value, and the network is a function from URL to response. The diagnostic message is not modelled.
- The status code in the thrown error message is not modelled. Only `response.ok` decides the outcome.
- Github.FetchStars: JavaScript numbers are modelled as unbounded integers. Fractional values, `NaN` and infinities are not modelled. With `NaN` or infinities `compareStars` would not be a consistent order.
- `Promise.all` fan-out, React scheduling (`useEffect`, state setters, dependency arrays) and the hook rules are not modelled. The batch is a sequential loop followed by one assignment to `projectData`.
- Projects.SortByStars: ECMAScript requires `Array.prototype.sort` to be stable, so the source keeps records with equal counts in input order; the model does not prove this and states only non-increasing order and permutation.
- `src/hooks/useGithubStars.ts` is not part of this model. It only calls `fetchStars` and stores the result. `RepoLink.DisplayedStars` takes its current value as a parameter.
- All JSX, SVG icons, the Listbox menu widget and CSS class strings are not modelled, and neither is the `className` prop. The menu's icons are kept as the values of `themeOptions`.
- Framework configuration (`astro.config.mjs`, `tailwind.config.cjs`) and the content schema (`src/content/config.ts`) hold no logic of their own.
- Unavailable `localStorage` is not modelled: the store is always present.
