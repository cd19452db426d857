# Deep-link routing and dependency resolution of the Customer.io iOS samples

This project models, in Dafny, the two pieces of sequential logic in the
Customer.io iOS SDK repository's sample code and data-pipeline module:

- **The SwiftUI sample app's deep-link router** (`Apps/CocoaPods-FCM/src/App.swift`). The `onOpenURL`
  handler takes a decomposed URL and derives a command. For a universal link
  (`https`) the command is the path with every `/` removed; otherwise it is
  the host. `login` logs the user out, `dashboard` closes the settings
  overlay, `settings` opens it pre-filled from the first `site_id` and
  `cdp_api_key` query items, and any other command does nothing. The window
  shows the settings overlay if there is one, else the dashboard for a
  logged-in user, else the login screen.
- **The data-pipeline module's dependency-injection graph** (`Sources/DataPipeline/autogenerated/AutoDependencyInjection.generated.swift`). Each
  accessor returns a test override if one is registered. Otherwise the
  singleton `AutoTrackingScreenViewStore` comes from the `singletons`
  cache, keyed by its type name and created on first access. The two other
  types are constructed afresh on every call.

Files:

- `wrappers.dfy`: `Option`, Swift's optional.
- `deep_link.dfy` (module `DeepLink`): the URL as a record of its parts,
  command extraction and query-item lookup, all as pure functions.
- `main_app.dfy` (module `MainApp`): the app state and the screen choice.
  `OpenUrl` specifies the handler. The classes `UserManager` and
  `MainApp` hold the state in fields, and `MainApp.OnOpenUrl` is the
  handler written imperatively and proved against `OpenUrl`.
- `di_graph.dfy` (module `DIGraph`): the graph state as a value `Graph`
  (overrides, singletons, next object identity). `Resolve` specifies the
  accessors, with lemmas about runs of accesses. The class `DIGraphShared`
  holds the same state in fields, and its accessors are proved against
  `Resolve`.

Objects are modelled by the type they conform to and an identity.
Identities come from one counter. Every object the graph holds, whether a
cached singleton or a test override, already exists, so its identity is
below the counter (`DIGraph.Valid`). Objects passed to `override` are
therefore required to have an identity already handed out. A constructor
takes the counter's value, so "a newly constructed instance" is one the
graph does not yet hold.

A `login` link only logs the user out. The comment beside that call
(`Apps/CocoaPods-FCM/src/App.swift:53`) says it forces the login screen.
That holds only when no settings overlay is open: an open overlay stays in
front. `MainApp.ScreenAfterOpenUrl` states exactly when the login screen
appears.

## Model

| member | source | states |
|---|---|---|
| DeepLink.StripSlashes | Apps/CocoaPods-FCM/src/App.swift:46 | The result contains no `/`; every other character occurs in it as often as in the input; its length drops by the number of slashes; a slash-free string is unchanged |
| DeepLink.StripSlashesAppend | Apps/CocoaPods-FCM/src/App.swift:46 | Removing slashes from a concatenation is the concatenation of the parts with slashes removed |
| DeepLink.StripSlashesIdempotent | Apps/CocoaPods-FCM/src/App.swift:46 | Stripping a command again does not change it |
| DeepLink.Command | Apps/CocoaPods-FCM/src/App.swift:43-49 | For scheme `https` the command is the path with all `/` removed and contains no `/`; for any other (or no) scheme it is the host, which must be present (the code force-unwraps it) |
| DeepLink.UniversalLinkCommand | Apps/CocoaPods-FCM/src/App.swift:44-46 | A universal link with path `/cmd` or `/cmd/` (cmd slash-free) yields exactly `cmd`, whatever the host and query |
| DeepLink.FirstIndexNamed | Apps/CocoaPods-FCM/src/App.swift:61-62 | Finds no index exactly when no item has the name; a found index is the first item with that name |
| DeepLink.QueryValue | Apps/CocoaPods-FCM/src/App.swift:60-63 | No query, or no item with the name, gives none; otherwise the value (itself optional) of the first item with that name |
| DeepLink.QueryValueIgnoresLaterItems | Apps/CocoaPods-FCM/src/App.swift:61-62 | When the first item has the name, its value is the answer whatever follows |
| MainApp.Shown | Apps/CocoaPods-FCM/src/App.swift:22-31 | Settings is shown exactly when the overlay is present (with that view); Dashboard exactly when no overlay and logged in; Login exactly when no overlay and logged out |
| MainApp.SettingsFor | Apps/CocoaPods-FCM/src/App.swift:56-65 | The settings view carries the `site_id` and `cdp_api_key` query values; with no query both are none |
| MainApp.OpenUrl | Apps/CocoaPods-FCM/src/App.swift:42-69 | An undecomposable URL changes nothing; `login` logs out and keeps the overlay; `dashboard` clears the overlay and keeps the login state; `settings` opens the pre-filled overlay and keeps the login state; any other command changes nothing |
| MainApp.Dismiss | Apps/CocoaPods-FCM/src/App.swift:65-67 | The overlay closes and the login state is kept; the shown screen can change only if it was the settings screen |
| MainApp.OpenUrlIdempotent | Apps/CocoaPods-FCM/src/App.swift:42-69 | Following the same deep link twice has the effect of following it once |
| MainApp.ScreenAfterOpenUrl | Apps/CocoaPods-FCM/src/App.swift:51-68 | After `settings` the pre-filled settings screen shows; after `dashboard` the dashboard shows exactly when logged in; after `login` the dashboard never shows, and the login screen shows exactly when no overlay was open; other commands keep the screen |
| MainApp.SettingsThenDismiss | Apps/CocoaPods-FCM/src/App.swift:56-67 | Opening settings by deep link and dismissing them restores the earlier state and screen when no overlay was open |
| MainApp.ExampleQueryPrefills | Apps/CocoaPods-FCM/src/App.swift:60-63 | The query `site_id=ABC&cdp_api_key=XYZ` pre-fills ABC and XYZ |
| MainApp.UniversalSettingsLinkExample | Apps/CocoaPods-FCM/src/App.swift:42-67 | `https://host/settings?site_id=ABC&cdp_api_key=XYZ` shows the settings screen with ABC and XYZ |
| MainApp.UserManager.constructor | Apps/CocoaPods-FCM/src/App.swift:15 | The logged-in flag starts at the restored value |
| MainApp.UserManager.Logout | Apps/CocoaPods-FCM/src/App.swift:53 | The user is logged out |
| MainApp.MainApp.constructor | Apps/CocoaPods-FCM/src/App.swift:15-17 | The overlay starts closed; the user manager's state is kept |
| MainApp.MainApp.Body | Apps/CocoaPods-FCM/src/App.swift:22-31 | The screen drawn is the one `Shown` chooses from the fields |
| MainApp.MainApp.OnOpenUrl | Apps/CocoaPods-FCM/src/App.swift:42-70 | The new state is `OpenUrl` of the old state and the link |
| MainApp.MainApp.DismissSettings | Apps/CocoaPods-FCM/src/App.swift:65-67 | The new state is `Dismiss` of the old state |
| DIGraph.OverriddenInstance | Sources/DataPipeline/autogenerated/AutoDependencyInjection.generated.swift:90-92 | An override is found exactly when one of the right type is registered under the type's name, and it is that instance |
| DIGraph.CachedStore | Sources/DataPipeline/autogenerated/AutoDependencyInjection.generated.swift:93 | A cached singleton is found exactly when the `AutoTrackingScreenViewStore` entry holds an instance of that type |
| DIGraph.Construct | Sources/DataPipeline/autogenerated/AutoDependencyInjection.generated.swift:100-102 | A constructed object has the requested type; in a valid graph it is none of the cached singletons and none of the overrides, and the graph stays valid |
| DIGraph.SharedStore | Sources/DataPipeline/autogenerated/AutoDependencyInjection.generated.swift:86-98 | An override short-circuits and leaves the state alone; otherwise the cached instance is returned unchanged, or one new instance is made; the result is then cached; only the `AutoTrackingScreenViewStore` entry of `singletons` is written; overrides are untouched |
| DIGraph.Resolve | Sources/DataPipeline/autogenerated/AutoDependencyInjection.generated.swift:71-112 | Each accessor returns an instance of its type; an override wins and changes nothing; a non-singleton is new on every call and leaves `singletons` alone; at most one object is constructed; only the singleton's entry is written; every cached singleton stays older than the next identity |
| DIGraph.ResolveAll | Sources/DataPipeline/autogenerated/AutoDependencyInjection.generated.swift:54-67 | Resolving a sequence gives one instance of the right type per dependency and keeps the overrides |
| DIGraph.OverrideGraph | Sources/DataPipeline/autogenerated/AutoDependencyInjection.generated.swift:37-41 | After an override, the lookup for that type finds it; every other type's override entry and lookup is unchanged; singletons are untouched; validity is kept |
| DIGraph.ResetGraph | Sources/DataPipeline/autogenerated/AutoDependencyInjection.generated.swift:43-46 | After a reset both maps are empty, so no override and no cached singleton of any module remains; the identity counter is kept |
| DIGraph.OverrideHoldsForRun | Sources/DataPipeline/autogenerated/AutoDependencyInjection.generated.swift:71-84 | Once a type is overridden, every later access to it in any sequence of accesses returns the override |
| DIGraph.StoreIsShared | Sources/DataPipeline/autogenerated/AutoDependencyInjection.generated.swift:93-96 | Without an override, every singleton access in a sequence returns the same instance, which stays cached and equals any instance cached before, so it is constructed at most once |
| DIGraph.StoreTwiceIsIdentical | Sources/DataPipeline/autogenerated/AutoDependencyInjection.generated.swift:93-95 | Two consecutive singleton accesses return the identical instance and leave the state as the first left it |
| DIGraph.NonSingletonIsFresh | Sources/DataPipeline/autogenerated/AutoDependencyInjection.generated.swift:71-78 | Two consecutive non-overridden non-singleton accesses return distinct instances, neither of them a cached singleton, and leave `singletons` unchanged |
| DIGraph.ResetGivesNewInstance | Sources/DataPipeline/autogenerated/AutoDependencyInjection.generated.swift:43-46 | After a reset an access returns none of the singletons cached and none of the overrides registered before it |
| DIGraph.RegisteredResolve | Sources/DataPipeline/autogenerated/AutoDependencyInjection.generated.swift:54-67 | The three registered dependencies resolve, in order, to a logger, a screen-view store and a device-attributes provider |
| DIGraph.DIGraphShared.New | Sources/DataPipeline/autogenerated/AutoDependencyInjection.generated.swift:100-102 | Constructing an object is `Construct` on the state |
| DIGraph.DIGraphShared.TestDependenciesAbleToResolve | Sources/DataPipeline/autogenerated/AutoDependencyInjection.generated.swift:54-67 | Returns 3, and the new state is that of resolving the three registered dependencies in order |
| DIGraph.DIGraphShared.DataPipelinesLogger | Sources/DataPipeline/autogenerated/AutoDependencyInjection.generated.swift:71-78 | Result and new state are `Resolve` for the logger |
| DIGraph.DIGraphShared.AutoTrackingScreenViewStore | Sources/DataPipeline/autogenerated/AutoDependencyInjection.generated.swift:81-84 | Result and new state are `Resolve` for the screen-view store |
| DIGraph.DIGraphShared.SharedAutoTrackingScreenViewStore | Sources/DataPipeline/autogenerated/AutoDependencyInjection.generated.swift:86-98 | Result and new state are `SharedStore` |
| DIGraph.DIGraphShared.DeviceAttributesProvider | Sources/DataPipeline/autogenerated/AutoDependencyInjection.generated.swift:105-112 | Result and new state are `Resolve` for the device-attributes provider |
| DIGraph.DIGraphShared.Override | Sources/DataPipeline/autogenerated/AutoDependencyInjection.generated.swift:39-40 | The new state is `OverrideGraph` of the old; the object passed in must already exist |
| DIGraph.DIGraphShared.Reset | Sources/DataPipeline/autogenerated/AutoDependencyInjection.generated.swift:44-46 | The new state is `ResetGraph` of the old |

## Left out

- The per-type `DispatchQueue(...).sync` around singleton creation (`Sources/DataPipeline/autogenerated/AutoDependencyInjection.generated.swift:89`). It exists for thread safety; the model resolves sequentially. The accessor builds a new queue on every call, so the `sync` itself orders nothing between threads; concurrent first accesses are not modelled either way.
- `getOverriddenInstance`, `override`, `reset` and the graph's own initialisation live in a base class that is not part of this model. They are modelled abstractly: overrides are a map keyed by type name, a lookup returns the entry only if it has the requested type (the generic `T?` result), and `reset` empties both maps. `DIGraph.DIGraphShared.constructor` (an empty graph) stands for that initialisation.
- The constructors `DataPipelinesLoggerImpl`, `InMemoryAutoTrackingScreenViewStore` and `SdkDeviceAttributesProvider`, and the dependencies they are given (`logger`, `lockManager`, `deviceInfo`, `sdkClient`). Each construction is a fresh identity and nothing more. Those arguments are themselves `DIGraphShared` accessors generated in other modules (`Sources/DataPipeline/autogenerated/AutoDependencyInjection.generated.swift:77`, `:101`, `:111`). They go through the same override table and may write their own entries in the same `singletons` map. The model treats resolving them as leaving the graph unchanged. So the "only the singleton's entry is written" and "`singletons` unchanged" contracts of `DIGraph.Resolve`, `DIGraph.SharedStore` and `DIGraph.NonSingletonIsFresh` describe this module's code under that assumption.
- Parsing a raw URL with `URLComponents`. A URL arrives as its parts, or as none when it cannot be decomposed.
- SwiftUI rendering, environment objects and the accent colour. The visible screen is reduced to which of the three views is chosen.
- `UserManager` beyond its logged-in flag and `logout()`. Its initial value is a constructor argument because its persistence is not part of this model.
- `CioAppDelegateWrapper` and `Apps/APN-UIKit/NotificationServiceExtension/NotificationService.swift`. These only forward calls into the external SDK, which is not part of this model.
- `Apps/APN-UIKit/APN UIKit/AppDelegate.swift`. It builds the SDK configuration from stored settings: it skips empty API and CDN host overrides, flushes after every event in test mode, and fails an assertion when no settings are stored. It also implements the in-app event listener, which dismisses the current message before tracking when the action name is `remove` or `test`. These are small conditionals of its own, outside the two pieces modelled here.
- The settings view's dismiss callback is a closure captured by the view; it is modelled as the method `MainApp.MainApp.DismissSettings` rather than a stored closure.
