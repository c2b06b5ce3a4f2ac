# autobrr web build: the `manualChunks` bundle policy

The web front end of autobrr is built with Vite, and its Rollup output options
carry a `manualChunks(id)` hook (`web/vite.config.ts`, lines 105-127). The
bundler calls it once for every module it puts into the production build.
The hook returns the name of the output bundle that the module goes into.
It tries six tests in a fixed order, and the first test that matches decides:

1. the id contains `.css`: `index` (stylesheets are not split off);
2. the id contains `/react@`, `/react-dom@` or `/react-router-dom@`: `react`;
3. the id contains `react` anywhere: `react-vendor`;
4. the id contains `src/components`: `components`;
5. the id contains `src/forms`: `forms`;
6. the id contains `src/screens`: `screens`;
7. otherwise: `index`.

Every regular expression in the hook is made of literal characters only. So
each test is a substring test, and the model states it as one:

- `Substring` (`substring.dfy`) models `regex.test(id)` for such a pattern. The
  reference meaning is `Occurs`: the pattern occurs at some position of the id.
  `ContainsFrom` and `Contains` give the left-to-right scan that finds it, and
  they are proved equal to that meaning. The module also holds the facts about
  substrings that the policy's proofs need.
- `ManualChunks` (`manual_chunks.dfy`) holds the `Bundle` datatype,
  `ChunkName` (the string the hook returns), the six tests and `Classify`, the
  decision chain itself. The lemmas say exactly which ids each bundle
  receives. A second, independent statement of the policy is also given: the
  ordered rule list `Rules`, evaluated by `FirstMatch` (first match wins,
  `index` when nothing matches). It is proved to agree with `Classify` on
  every id.
- `ChunkCases` (`chunk_cases.dfy`) works the policy out on concrete ids: a
  stylesheet, a pre-bundled `react-dom` dependency, a component, a form, a
  screen, a plain dependency, and the order-sensitive cases.

The hook does not test for path segments, unlike a literal reading of
"a `components` segment". It tests for the substrings `src/components`,
`src/forms` and `src/screens` anywhere in the id. The model follows the code.
So `vendor/mysrc/components2.js` also goes to `components`. The pre-bundled id
`node_modules/.vite/deps/react-dom@18.2.0.js` contains `/react-dom@`, so it goes
to `react` and not to `react-vendor` (`ChunkCases.PrebundledDomCase`).

## Model

| member | source | states |
|---|---|---|
| `Substring.ContainsFrom` | web/vite.config.ts:107-122 | the scan from position `from` succeeds exactly when the pattern occurs at `from` or later |
| `Substring.Contains` | web/vite.config.ts:107-122 | `/p/.test(id)` for a literal pattern is true exactly when `p` occurs somewhere in `id` |
| `Substring.ContainsTransitive` | web/vite.config.ts:110-115 | a pattern found inside a matched pattern is found in the id too, so a more specific test implies the broader one |
| `ManualChunks.ManualChunksHook` | web/vite.config.ts:105-127 | the hook is total, and for every id it returns one of `index`, `react`, `react-vendor`, `components`, `forms`, `screens` |
| `ManualChunks.ChunkNameInjective` | web/vite.config.ts:108-126 | the six returned names are pairwise distinct, so no two bundles are merged |
| `ManualChunks.CoreFrameworkMentionsReact` | web/vite.config.ts:110-115 | every id that passes the versioned core test also passes the `/react/` test: the `react` test set lies inside the `react-vendor` test set |
| `ManualChunks.StylesheetGoesToIndex` | web/vite.config.ts:106-109 | an id containing `.css` goes to `index`, whatever else it contains |
| `ManualChunks.ReactBundleExactly` | web/vite.config.ts:106-112 | an id goes to `react` if and only if it has no `.css` and contains `/react@`, `/react-dom@` or `/react-router-dom@` |
| `ManualChunks.ReactBundleMentionsReact` | web/vite.config.ts:110-115 | every id in the `react` bundle contains `react`, so the broader rule 3 would also have taken it |
| `ManualChunks.ReactVendorBundleExactly` | web/vite.config.ts:106-115 | an id goes to `react-vendor` if and only if it has no `.css`, none of the three versioned core patterns, and contains `react` |
| `ManualChunks.MentionsReactGoesToFramework` | web/vite.config.ts:106-115 | a non-stylesheet id that contains `react` goes to `react` or `react-vendor`, whatever directory it lies in |
| `ManualChunks.MentionsReactNeverApplication` | web/vite.config.ts:106-124 | an id that contains `react` never goes to `components`, `forms` or `screens`, even under `src/components` |
| `ManualChunks.ComponentsBundleExactly` | web/vite.config.ts:106-118 | an id goes to `components` if and only if it contains `src/components` and neither `.css` nor `react` |
| `ManualChunks.FormsBundleExactly` | web/vite.config.ts:106-121 | an id goes to `forms` if and only if it contains `src/forms` and none of `.css`, `react`, `src/components` |
| `ManualChunks.ScreensBundleExactly` | web/vite.config.ts:106-124 | an id goes to `screens` if and only if it contains `src/screens` and none of `.css`, `react`, `src/components`, `src/forms` |
| `ManualChunks.IndexBundleExactly` | web/vite.config.ts:106-127 | an id goes to `index` if and only if it contains `.css`, or it contains none of `react`, `src/components`, `src/forms`, `src/screens`; in particular an id that passes none of the six tests goes to `index` |
| `ManualChunks.FirstMatch` | web/vite.config.ts:105-127 | evaluating an ordered rule list returns the bundle of the first rule that matches, and `index` when no rule matches |
| `ManualChunks.RuleTests` | web/vite.config.ts:107-122 | each entry of the rule list `Rules` matches exactly the ids that the corresponding test of the hook accepts |
| `ManualChunks.ClassifyIsFirstMatch` | web/vite.config.ts:105-127 | the hook's chain of `if` tests gives, for every id, the same bundle as first-match evaluation of the six rules in source order |
| `ChunkCases.StylesheetCase` | web/vite.config.ts:107-109 | `styles/app.css` goes to `index` |
| `ChunkCases.ReactStylesheetCase` | web/vite.config.ts:106-115 | `node_modules/react-toastify/dist/ReactToastify.css` goes to `index`, not to a react bundle |
| `ChunkCases.PrebundledDomCase` | web/vite.config.ts:107-112 | `node_modules/.vite/deps/react-dom@18.2.0.js` goes to `react` |
| `ChunkCases.ComponentCase` | web/vite.config.ts:107-118 | `src/components/Button.tsx` goes to `components` |
| `ChunkCases.FormCase` | web/vite.config.ts:107-121 | `src/forms/LoginForm.tsx` goes to `forms` |
| `ChunkCases.ScreenCase` | web/vite.config.ts:107-124 | `src/screens/Dashboard.tsx` goes to `screens` |
| `ChunkCases.PlainDependencyCase` | web/vite.config.ts:107-127 | `node_modules/some-lib/index.js` matches no test and goes to `index` |
| `ChunkCases.ReactNamedComponentCase` | web/vite.config.ts:110-118 | `src/components/reactTable.tsx` goes to `react-vendor`, not `components`, because the `/react/` test comes first |

## Left out

- Loading the `.env` file into `process.env` (line 10): process and file-system I/O.
- The plugin list, the PWA manifest, its icons and the workbox settings (lines 13-72): static data handed to plugins whose behaviour is not part of this model.
- The path aliases (lines 73-86): static data built with URL and file-system helpers.
- The development server, hot reload and the `/api` proxy (lines 87-99): network plumbing.
- The `manifest` and `sourcemap` build flags (lines 100-102), and what Rollup does with the returned chunk name: bundler behaviour outside the hook.
- Regular expressions in general: every pattern of the hook is literal, so each test is modelled as a substring test and no regex engine is modelled.
- JavaScript strings are sequences of UTF-16 code units, and the model's strings are sequences of Unicode characters. All six patterns are ASCII, so a pattern occurs in an id under one reading exactly when it occurs under the other.
