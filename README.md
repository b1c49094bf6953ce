# lite-chart-bar: the chart's interval switching, the install prompt and the interval button, in Dafny

This project models the three decision procedures of the lite-chart-bar web front-end and proves what they do.

- **Chart viewer** (`TradingChart`, file `trading_chart.dfy`). This is `src/components/TradingChart.tsx`. Its state is the current interval, the interval being loaded, the data last given to the candlestick series, and the one outstanding history request. `fetchData` is split at its `await`. `StartLoad` is the part that runs before the request goes out. `Settle` is the part that runs when the response or its failure arrives: the `try`, `catch` and `finally` blocks. `Convert` is the conversion of history rows into chart points. `Toolbar` is the row of interval buttons. The pure transition functions are the specification. The class `ChartView` keeps the same state in fields, and its methods are proved to follow those functions.
- **Install prompt** (`PwaInstall`, file `pwa_install.dfy`). This is `src/components/PWAInstallButton.tsx`. Its state is three flags: whether a `beforeinstallprompt` event is held, whether the install button is shown, and whether the iOS banner is shown. These flags change on four events: mount with the user-agent heuristics, `beforeinstallprompt`, an install click with the outcome the platform reports, and dismissal of the banner. `Render` picks one of three screens. The class `InstallPrompt` keeps the flags in fields.
- **Interval button** (`IntervalButton`, file `interval_button.dfy`). This is `src/components/ui/interval-button.tsx`. It chooses the variant by priority (loading, then active, then the caller's variant, then the `cva` default) and works out the `disabled` flag.
- `Wrappers` (file `wrappers.dfy`) holds the `Option` type. For the button's `variant` prop, `None` stands for an omitted prop (`undefined`). For `loadingInterval`, `None` stands for `null`.

Some timestamps are in milliseconds. Dafny's `/` with a positive divisor is floor division, so `d.time / 1000` is `Math.floor(Number(d.time) / 1000)` for integer-valued input.

Four behaviours of the code a reader may not expect; the model follows the code:
- A failed install prompt does not clear the held event. The clear is the last statement of the `try` block, so a later click can prompt again.
- The iOS banner is tested first when rendering, so it hides the native install button while both flags are set.
- No check stops a late response from updating the chart. No stale request is discarded either.
- The conversion reads each row's `time` field, not its `timestamp` field.

## Model

| member | source | states |
|---|---|---|
| IntervalButton.ComputedVariant | src/components/ui/interval-button.tsx:37 | loading gives "loading" whatever the active flag says. Otherwise active gives "active". Otherwise the caller's variant passes through, and may be absent. |
| IntervalButton.Resolve | src/components/ui/interval-button.tsx:20-23 | an absent variant becomes the default variant "default". A given variant is kept. |
| IntervalButton.Render | src/components/ui/interval-button.tsx:35-47 | the full priority: loading, then active, then the caller's variant, then "default". A loading button is always disabled. A button that is not loading is disabled exactly when the caller said so. |
| IntervalButton.LoadingLookIff | src/components/ui/interval-button.tsx:37-43 | the "loading" look appears exactly when the button is loading, or when it is not active and the caller asked for "loading". That second case does not disable the button. |
| IntervalButton.ActiveLookIff | src/components/ui/interval-button.tsx:37 | with no caller variant, each of the three looks is equivalent to its flag combination. |
| IntervalButton.DisabledIff | src/components/ui/interval-button.tsx:43 | disabled exactly when `disabled` or `isLoading` is set. |
| TradingChart.Initial | src/components/TradingChart.tsx:30-31 | before the mount effect: the current interval is 900, nothing is loading or in flight, there is no series, no data and no request; this state satisfies the invariant. |
| TradingChart.IntervalsDistinct | src/components/TradingChart.tsx:16-30 | the five configured periods are pairwise distinct, and the default 900 is one of them. |
| TradingChart.Payload | src/components/TradingChart.tsx:121-131 | the rows reach the conversion exactly when the network call succeeds, the status is 2xx (`IsOk`, which is `response.ok`) and the body is an array of rows. They are the body's rows. |
| TradingChart.ConvertRow | src/components/TradingChart.tsx:135-139 | the point's time t is the unique second with t*1000 <= ms < t*1000+1000 (floor). Open, high, low and close are copied. |
| TradingChart.Convert | src/components/TradingChart.tsx:134-140 | exactly one point per row, in order, each the converted row. |
| TradingChart.ConvertIgnoresTimestamp | src/components/TradingChart.tsx:134-140 | rows that differ only in `timestamp` give the same points. |
| TradingChart.ConvertRowMonotone | src/components/TradingChart.tsx:135 | flooring to seconds keeps the order of times. |
| TradingChart.ConvertKeepsOrder | src/components/TradingChart.tsx:134-140 | rows in ascending time order give points in non-decreasing time order. |
| TradingChart.ConvertMergesWithinOneSecond | src/components/TradingChart.tsx:135 | two rows 999 ms apart in the same second get the same point time. |
| TradingChart.StartLoad | src/components/TradingChart.tsx:118-125 | the interval is marked as loading and in flight, and one request for it is added to the issued requests. The data and the current interval stay as they were. |
| TradingChart.Mount | src/components/TradingChart.tsx:30-107 | the current interval is 900 and the data is empty. With a container, the series exists and exactly one load of 900 is pending. Without a container, nothing is loading and nothing is fetched. |
| TradingChart.IntervalChange | src/components/TradingChart.tsx:160-165 | requesting the current interval, or any interval while a load is pending, changes nothing and issues no fetch. Otherwise the requested interval becomes current and loading before its response, and exactly one request for it goes out. |
| TradingChart.Settle | src/components/TradingChart.tsx:127-156 | afterwards nothing is loading or in flight. The current interval is not rolled back. On failure, or without a series, the data is unchanged. On success it is exactly the converted rows, one point per row. |
| TradingChart.MountInv | src/components/TradingChart.tsx:30-107 | the mounted state satisfies the invariant. |
| TradingChart.StepInv | src/components/TradingChart.tsx:118-165 | each event from the toolbar, and each response, keeps the invariant. The invariant says: the current interval is configured; loading equals the request in flight; a loading interval is the current one; the pending request is the last one issued. |
| TradingChart.RunInv | src/components/TradingChart.tsx:171-176 | since requests only come from the `INTERVALS` periods, the invariant holds after any run of events. In particular `currentInterval` is always configured. |
| TradingChart.FetchOnlyWhenIdle | src/components/TradingChart.tsx:161-163 | an event issues a fetch only when none is in flight, and then exactly one, for the requested interval. |
| TradingChart.RequestsWhileLoading | src/components/TradingChart.tsx:161 | while a load is pending, any sequence of requests leaves the whole state unchanged. |
| TradingChart.RequestThenArrive | src/components/TradingChart.tsx:118-165 | an accepted request followed by its response leaves the new interval current and nothing loading. Exactly one request is added. The data is the converted rows on success and the old data on failure. |
| TradingChart.SwitchDuringLoadIsDropped | src/components/TradingChart.tsx:118-163 | for any requested interval, a request made while a load is pending is dropped, not queued. After the pending response the current interval is the one that was loading, nothing is loading, and no request was added. |
| TradingChart.SwitchDuringMountLoadIsDropped | src/components/TradingChart.tsx:107-163 | a click on 1m during the mount load is dropped. After the response the chart is still on 900, and only 900 was fetched. |
| TradingChart.ToolbarProps | src/components/TradingChart.tsx:172-177 | a button is active exactly when its period is current, and loading exactly when its period is the loading one. It has no variant and no caller `disabled`. |
| TradingChart.Toolbar | src/components/TradingChart.tsx:171-181 | one rendered button per configured interval, in order. |
| TradingChart.AtMostOneActiveOneLoading | src/components/TradingChart.tsx:174-175 | at most one button is active and at most one button is loading. |
| TradingChart.ToolbarInState | src/components/TradingChart.tsx:171-181 | in any state satisfying the invariant, exactly the current interval's button stands out. It shows "active" when idle; it shows "loading" and is disabled while its load is pending. Every other button shows "default" and stays enabled. |
| TradingChart.ChartView.constructor | src/components/TradingChart.tsx:30-107 | the first render and the mount effect give the state `Mount` describes. |
| TradingChart.ChartView.FetchData | src/components/TradingChart.tsx:118-125 | the fields change as `StartLoad` says. |
| TradingChart.ChartView.ClickInterval | src/components/TradingChart.tsx:160-176 | a click on the i-th button changes the fields as `IntervalChange` says for that button's period, and keeps the invariant. |
| TradingChart.ChartView.ReceiveResponse | src/components/TradingChart.tsx:127-156 | the pending response changes the fields as `Settle` says, and keeps the invariant. |
| TradingChart.ChartView.RenderToolbar | src/components/TradingChart.tsx:171-181 | the buttons are `Toolbar` of the current fields. The current interval's button shows "active" when nothing is loading, and shows "loading" and is disabled while its load is pending. Every other button shows "default" and is enabled. |
| PwaInstall.Contains | src/components/PWAInstallButton.tsx:23-25 | the literal-pattern `test`: a pattern longer than the string never matches, and one at the start always does. |
| PwaInstall.IsIOS | src/components/PWAInstallButton.tsx:23 | holds exactly when "iPad", "iPhone" or "iPod" occurs somewhere in the user agent. |
| PwaInstall.IsSafari | src/components/PWAInstallButton.tsx:25 | holds exactly when "Safari" occurs in the user agent and "Chrome" occurs nowhere in it. |
| PwaInstall.ContainsIff | src/components/PWAInstallButton.tsx:23-25 | the substring test used for the user-agent patterns holds exactly when the pattern occurs at some index. |
| PwaInstall.Mount | src/components/PWAInstallButton.tsx:10-29 | no event is held and the button is hidden. The banner is shown exactly when the user agent names iPad, iPhone or iPod, contains "Safari" and not "Chrome", and the page is not standalone. |
| PwaInstall.BeforeInstallPrompt | src/components/PWAInstallButton.tsx:16-20 | the event is held and the button is shown. The banner flag is untouched. |
| PwaInstall.InstallClick | src/components/PWAInstallButton.tsx:38-51 | with no held event nothing changes. Accepted hides the button and spends the event. Dismissed spends the event and leaves the button. A throw changes nothing. The banner is never touched. |
| PwaInstall.Dismiss | src/components/PWAInstallButton.tsx:53-55 | only the banner flag changes, to false. |
| PwaInstall.Render | src/components/PWAInstallButton.tsx:57-101 | the banner exactly when its flag is set. Otherwise the button exactly when its flag is set. Otherwise nothing. |
| PwaInstall.RunInv | src/components/PWAInstallButton.tsx:16-55 | after any events, a held event implies that the button flag is set. |
| PwaInstall.BannerAfterRun | src/components/PWAInstallButton.tsx:27-55 | after any events the banner flag is set exactly when it was set before and no dismissal occurred. Nothing sets it after mount. |
| PwaInstall.NoBannerOffIOSSafari | src/components/PWAInstallButton.tsx:22-29 | when the heuristics fail at mount, the banner is never rendered, whatever follows. |
| PwaInstall.BannerUntilDismissed | src/components/PWAInstallButton.tsx:27-57 | when the heuristics hold at mount, the banner is rendered until it is dismissed, even if a native prompt arrives. |
| PwaInstall.DismissedStaysDismissed | src/components/PWAInstallButton.tsx:53-55 | once dismissed, the banner is never rendered again. |
| PwaInstall.AcceptedIsFinal | src/components/PWAInstallButton.tsx:42-46 | after acceptance the button is not rendered, and a further click of any outcome changes nothing. |
| PwaInstall.DismissedLeavesInertButton | src/components/PWAInstallButton.tsx:39-46 | after a dismissed prompt the button is still rendered, but clicking it changes nothing. |
| PwaInstall.ThrowKeepsOffer | src/components/PWAInstallButton.tsx:40-49 | after a throw the event is still held, so a later accepted click acts as if the throw never happened. |
| PwaInstall.InstallPrompt.constructor | src/components/PWAInstallButton.tsx:10-29 | the fields are as `Mount` gives them, and the invariant holds. |
| PwaInstall.InstallPrompt.HandleBeforeInstallPrompt | src/components/PWAInstallButton.tsx:16-20 | the fields change as `BeforeInstallPrompt` says, and the invariant is kept. |
| PwaInstall.InstallPrompt.HandleInstallClick | src/components/PWAInstallButton.tsx:38-51 | the fields change as `InstallClick` says, and the invariant is kept. |
| PwaInstall.InstallPrompt.DismissIOSPrompt | src/components/PWAInstallButton.tsx:53-55 | the fields change as `Dismiss` says, and the invariant is kept. |
| PwaInstall.InstallPrompt.View | src/components/PWAInstallButton.tsx:57-101 | the screen is `Render` of the current fields: the banner first, then the button, then nothing. |

## Left out

- Chart construction, theme and series options, `fitContent`, the `ResizeObserver` and the unmount cleanup. These are calls into the charting library and the browser. `setData` is modelled as replacing the series' data sequence.
- The request URL, the `cache: "no-store"` option and `response.json()` are left out. A response is a network error, or a status with a body that is either an array of rows or malformed.
- `Number()` parsing of the row strings. Row fields are integers, so NaN, fractional prices and fractional milliseconds are not modelled.
- `console.log` and `console.error` calls.
- Asynchronous interleaving. A history response and an install outcome are each one atomic event. A second install click, or a new `beforeinstallprompt`, while the platform prompt is still open is not modelled.
- TradingChart.Settle: it requires a request in flight, because a response only arrives for a fetch that was issued. `Step` ignores a response event when no request is in flight.
- The mount effect runs once, because the application root is not wrapped in StrictMode. In each class the constructor is the first render plus the mount effect. Registering and removing the `beforeinstallprompt` listener is left out.
- `e.preventDefault()` on the `beforeinstallprompt` event. It is a call into the browser with no effect on the component's state.
- The user-agent regular expressions become literal substring tests. `matchMedia('(display-mode: standalone)')` is a boolean parameter.
- IntervalButton.Resolve: a caller's `variant={null}` is not modelled. `cva` renders no variant class for `null`, while `None` here means an omitted prop, which resolves to "default". No caller here passes `null`.
- `cva` and `cn` class strings, the `size` variants and all JSX markup. Only the variant chosen and the `disabled` attribute are modelled.
- React's render cycle. Each event handler, together with the re-render that follows it, is one step.
- src/main.tsx only logs and mounts the root. It is not part of this model.
