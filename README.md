# Consent-preference change detector of the Base web app shell

This project models the one piece of logic in `AppProviders`, the root
provider component of the Base web application: the **consent-preference
change detector**. The cookie-manager provider calls `setTrackingPreference`
every time the user's tracking preference is resolved or changed, the first
time included. The detector keeps the latest preference in a ref. It asks for
a full page reload when the consent categories differ, as sets, from those of
the update just before. The project also models two pure configuration
values: the wallet-connect project-id fallback, and the chain handed to the
on-chain API provider.

Files:

- `wrappers.dfy`: `Option`, standing for a value that may be `undefined`.
- `consent_diff.dfy` (module `ConsentDiff`): the `includes` and `some` scans
  as recursive functions, the `preferencesChanged` test built from them, and
  a set-based reference definition `Changed`, meaning the symmetric
  difference is non-empty. The lemmas prove the scans equal to `Changed`, and
  prove symmetry, insensitivity to order and duplicates, and the cases of
  addition, removal, identity and disjoint swap.
- `consent_governance.dfy` (module `ConsentGovernance`): one update as a pure
  `Step` on the holder value, runs of updates (`Holder`, `Reloads`), and the
  class `PreferenceHolder`. The class has the mutable ref field `current`, and
  its method `SetTrackingPreference` reads the prior value, overwrites the
  field and returns whether a reload is requested. Ghost fields record every
  update received and every reload flag, and `Valid()` ties them to the pure
  run functions.
- `provider_config.dfy` (module `ProviderConfig`): the `|| 'dummy-id'`
  fallback with JavaScript truthiness, the configured chain list and its
  transports, and the `isDevelopment ? baseSepolia : base` switch.

Tracking categories are a type parameter with equality. The cookie-manager's
category enumeration is not part of this model. The concrete cases use
strings such as `"analytics"`.

`window.location.reload()` is the boolean that `SetTrackingPreference`
returns. The environment values (`NEXT_PUBLIC_WALLET_CONNECT_PROJECT_ID`,
`isDevelopment`) are parameters.

The source stores consent as an array and tests it only with `includes`.
The model therefore keeps a sequence, and proves that only its set of
elements matters.

## Model

| member | source | states |
|---|---|---|
| ConsentDiff.Includes | apps/web/app/AppProviders.tsx:87-88 | the `includes` scan is true exactly when the element occurs in the list |
| ConsentDiff.SomeMissing | apps/web/app/AppProviders.tsx:86-88 | the `some(elem => !other.includes(elem))` scan is true exactly when some element of the first list is absent from the second |
| ConsentDiff.PreferencesChanged | apps/web/app/AppProviders.tsx:86-88 | the two-way scan is true exactly when the symmetric difference of the two lists, viewed as sets, is non-empty |
| ConsentDiff.SomeMissingIsSetDifference | apps/web/app/AppProviders.tsx:86-88 | one scan finds a missing element exactly when the set difference of the two lists is non-empty |
| ConsentDiff.ChangedIffElemsDiffer | apps/web/app/AppProviders.tsx:86-88 | a non-empty symmetric difference is the same as the two lists naming different category sets |
| ConsentDiff.ChangedIsSymmetric | apps/web/app/AppProviders.tsx:86-88 | the change test gives the same answer with the two lists swapped |
| ConsentDiff.ChangedDependsOnlyOnElems | apps/web/app/AppProviders.tsx:86-88 | lists with the same element sets give the same answer, so order and duplicates never matter |
| ConsentDiff.ReconfirmationIsNoChange | apps/web/app/AppProviders.tsx:86-88 | re-confirming the same categories, reordered or repeated, is never a change |
| ConsentDiff.PureAdditionIsChange | apps/web/app/AppProviders.tsx:88 | a new list that strictly extends the prior category set is a change |
| ConsentDiff.PureRemovalIsChange | apps/web/app/AppProviders.tsx:86-87 | a new list that strictly shrinks the prior category set is a change |
| ConsentDiff.ConcreteCases | apps/web/app/AppProviders.tsx:86-88 | {analytics} to {analytics, performance} and back are changes, {analytics} to itself is not, {analytics} to {performance} is, and a reordered list with duplicates is not |
| ConsentGovernance.Step | apps/web/app/AppProviders.tsx:78-91 | one update always leaves the new preference in the holder, and reloads exactly when a prior preference was defined and its consent differs from the new one as a set |
| ConsentGovernance.HolderTracksLast | apps/web/app/AppProviders.tsx:79-80 | after a non-empty run of updates the holder is the last preference received, whether or not a reload occurred |
| ConsentGovernance.RunSnoc | apps/web/app/AppProviders.tsx:78-91 | appending one update extends the run by exactly one step from the holder the run had reached |
| ConsentGovernance.ReloadAt | apps/web/app/AppProviders.tsx:79-90 | the k-th update reloads exactly when its consent differs as a set from that of the update immediately before it; the first one is compared only with the starting holder |
| ConsentGovernance.FirstUpdateNeverReloads | apps/web/app/AppProviders.tsx:76-82 | the first update after mount never reloads, whatever its consent list |
| ConsentGovernance.UnchangedRunNeverReloads | apps/web/app/AppProviders.tsx:79-90 | a run in which no update changes the categories of the one before never reloads |
| ConsentGovernance.PreferenceHolder.constructor | apps/web/app/AppProviders.tsx:76 | on mount the ref is undefined and no update has been received |
| ConsentGovernance.PreferenceHolder.SetTrackingPreference | apps/web/app/AppProviders.tsx:78-91 | the ref afterwards holds the new preference; the update is appended to the history; the reload flag is true exactly when a prior was defined (an empty prior list included) and the two consent sets differ |
| ProviderConfig.ProjectId | apps/web/app/AppProviders.tsx:48 | the project identifier is the environment value when that is a non-empty string and `dummy-id` otherwise, and it is never empty |
| ProviderConfig.OnchainKitChain | apps/web/app/AppProviders.tsx:113 | the chain is Base Sepolia exactly in development and Base exactly otherwise, and it is a configured chain with a transport |
| ProviderConfig.ConfiguredChainsHaveTransports | apps/web/app/AppProviders.tsx:59-64 | the configured chains are distinct and are exactly the chains with a transport |

## Left out

- The JSX provider nesting and rendering (apps/web/app/AppProviders.tsx:97-132). It is a fixed tree of third-party components, with no logic of its own.
- The third-party SDKs are foreign code whose bodies are not visible: `connectorsForWallets` and the wallet list (:40-55), `createConfig` beyond its chain list and transports (:57-66), `QueryClient` (:68), `useSprig` (:95), OnchainKit, RainbowKit, the cookie-manager provider and `ExperimentsProvider`.
- The cookie-manager provider's own first call of `onPreferenceChange` at initialisation belongs to that provider. The model starts from the holder's mount state.
- `window.location.reload()` as a real effect: it is the returned flag. The remount after a reload, which resets the ref to undefined, is not modelled, so a run continues from the last holder value.
- The lazy cookie-banner import with `ssr: false` (:33-36). It is asynchronous module loading.
- The `console.log` / `console.error` logging (:93, :103). It is I/O.
- The global flag `coinbaseWallet.preference = 'all'` (:38). It is a library setting with no logic.
- Environment-variable sourcing (:48, :69, :114). The values are parameters, and the on-chain API key and Sprig id pass through unused.
- `useRef`/`useCallback` memoisation. The ref is a plain field of one object, and the callback is a method on it.
- The preference record's other fields are not modelled. The detector reads only `consent`, and the record is stored whole.
