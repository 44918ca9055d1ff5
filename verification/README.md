# CARTA vendor portal: order lifecycle and session model

This is a Dafny model of the logic in the CARTA vendor dashboard (`app.py`). The
dashboard is a Streamlit page over a REST backend and a Cognito user pool. Its
logic comes down to two state machines:

- **The order lifecycle** (module `Lifecycle`, module `Orders`). In the Orders
  tab, an order's status string decides which action buttons its row shows.
  `pending` offers "Accept & Prepare" (to `preparing`). `preparing` offers
  "Ready for Pickup" (to `ready_for_pickup`). `ready_for_pickup` offers both
  "🚀 DISPATCH CART" (to `out_for_delivery`) and "Simulate Delivered" (to
  `delivered`). Every other status is shown as text. Pressing a button calls
  `update_order_status`. That call sends `{"status": target}` with `PUT` and
  re-runs the page only when the answer is 200.
- **The session** (module `Session`). The page keeps two keys, `token` and
  `profile`. A login stores the token only when Cognito returned a truthy one.
  The first dashboard run fetches and caches the profile. If that fetch fails,
  the page offers a "Logout" that clears the token. The sidebar "Log Out"
  clears both keys.

Modelling choices:

- Status strings are parsed at the boundary. `Lifecycle.Parse` and
  `Lifecycle.Name` form a round trip. `Other(raw)` holds every unrecognised
  string. `Lifecycle.Table` is the transition table written as a plain
  relation, and the branch-by-branch code is proved equal to it.
- The backend, Cognito and the network are inputs. The model takes as
  parameters the HTTP answer to an update (`Orders.Reply`), the provider's
  answer to a login (`Session.AuthResult`) and the answer to the profile
  fetch (`Session.ProfileReply`).
- After a 200 answer the page re-fetches the order list. The model assumes
  the backend applied exactly the requested status to the order with that id
  (`Orders.Refetched`). The claim "no other order changes" also relies on the
  backend returning distinct order ids (`Orders.UniqueIds`).
- Python truthiness is kept. An empty token string does not log in.

Two behaviours of the code worth knowing:

- A failed profile fetch does not log the vendor out by itself. The page shows
  an error and a "Logout" button, then stops the run. Only pressing that button
  clears the token, and until then each run fetches again
  (`Session.ProfileFailureLogout`).
- A connection error during a status update is not caught. It ends the page
  run, so nothing changes (`Orders.Reply.ConnectionError`, notice
  `RunAborted`). The code shows no "Failed to update status." message in this
  case.

## Model

| member | source | states |
|---|---|---|
| Lifecycle.Parse | app.py:143-157 | reading a status string yields a well-formed status whose name is the string again; exactly the five recognised strings map to lifecycle statuses |
| Lifecycle.Name | app.py:51-53 | the name of a well-formed status is a recognised string exactly when the status is one of the five lifecycle values |
| Lifecycle.NameRoundTrip | app.py:51-53 | parsing the name sent in a payload gives back the chosen target status |
| Lifecycle.OfferedTargets | app.py:143-157 | the targets offered from a status are exactly the table's successors; none are offered outside pending, preparing and ready_for_pickup |
| Lifecycle.SuccessorSets | app.py:143-157 | pending offers only preparing; preparing offers only ready_for_pickup; ready_for_pickup offers exactly out_for_delivery and delivered; out_for_delivery, delivered and unrecognised strings offer nothing |
| Lifecycle.OfferedIsForward | app.py:143-155 | every offered target is strictly later in the order pending < preparing < ready_for_pickup < out_for_delivery < delivered |
| Lifecycle.ChainRankGrows | app.py:143-155 | along any chain of offered transitions the rank grows by at least one per step |
| Lifecycle.ChainTakesAtMostThreeSteps | app.py:143-155 | any chain of offered transitions ends within three steps |
| Lifecycle.LongestChainExists | app.py:143-155 | three-step chains exist through either final status, so the bound is tight |
| Lifecycle.ChainNeverRevisits | app.py:143-155 | no status occurs twice along a chain of offered transitions |
| Orders.Cell | app.py:142-157 | a row's buttons lead to exactly the offered targets, with distinct captions and widget keys; the row is display-only, showing "Status: " and the raw status, exactly when nothing is offered |
| Orders.FinalActionsShownTogether | app.py:149-155 | the dispatch and simulated-delivery buttons are shown together, and only at ready_for_pickup |
| Orders.FindButton | app.py:143-155 | a pressed caption finds a button shown in the row with that caption, and finds none when the row shows no such caption |
| Orders.Refetched | app.py:54-56 | after a successful update, orders with the updated id carry the new status and differ in nothing else; other orders are unchanged |
| Orders.RefetchedIdempotent | app.py:51-56 | repeating the same successful update shows the same list as doing it once |
| Orders.UpdateOrderStatus | app.py:51-58 | the request carries the order id and a payload whose only field is the target's name; on 200 the updated order has exactly that status, the rest are unchanged and the success note names the order and status; on any other HTTP answer the list is unchanged and the failure note is written; a connection error ends the run with the list unchanged |
| Orders.Click | app.py:143-155 | a press sends a request exactly when the row shows that button; every request sent is for the pressed order, its payload is exactly the status of the pressed button's target, and the pair is in the transition table |
| Orders.ReadyForPickupFork | app.py:149-155 | at ready_for_pickup the dispatch caption sends out_for_delivery, the simulation caption sends delivered, and no other caption sends anything |
| Orders.CaptionsSend | app.py:143-155 | a press sends exactly for "Accept & Prepare" on pending, "Ready for Pickup" on preparing, and the dispatch or "Simulate Delivered" caption on ready_for_pickup; these send preparing, ready_for_pickup, out_for_delivery and delivered respectively |
| Orders.FailedClickChangesNothing | app.py:51-58 | when the answer is not 200, or the pressed caption is not shown in the row, the whole order list is unchanged |
| Orders.ClickMovesOnlyTheClickedOrder | app.py:51-58 | with distinct ids and a 200 answer, only the clicked order changes, only in its status, to a table successor strictly later in the lifecycle |
| Orders.AcceptPendingOrder | app.py:143-145 | order 42 pending, accepted, answered 200: the request is status preparing and the order is shown as preparing |
| Orders.DispatchRejected | app.py:149-152 | order 42 ready_for_pickup, dispatched, answered 500: the request is status out_for_delivery, the order is unchanged and the failure notice is shown |
| Session.LoginCognito | app.py:8-25 | a token is returned exactly when the provider issued one, otherwise an error; wrong credentials are reported as such and every other failure generically |
| Session.FetchProfile | app.py:31-37 | a profile is returned only from a 200 answer, and a 200 answer's profile is returned; failures and connection errors give none |
| Session.Step | app.py:82-123 | every page run keeps the session valid; the token changes only by a successful login or by a clear that also clears the profile; the profile is set only by the first-time fetch, and a successful first-time fetch does set it to the fetched profile |
| Session.FirstFetchCachesProfile | app.py:103-111 | when logged in without a cached profile, a successful fetch caches exactly the fetched profile and keeps the token, so the vendor stays logged in |
| Session.Run | app.py:82-123 | any sequence of page runs keeps a valid session valid |
| Session.ReachableIsValid | app.py:82-85 | every session reachable from the initial one is valid: no empty token stored, no profile without a login |
| Session.FailedLoginStoresNothing | app.py:94-98 | a login the provider rejects, whichever way, leaves no token and no profile |
| Session.LoginSucceedsOnlyWithToken | app.py:94-98 | from the login screen the session is logged in afterwards exactly when a non-empty token was issued, and that token is stored |
| Session.SidebarLogoutClears | app.py:120-123 | the sidebar logout returns the session to its initial state with no token and no profile |
| Session.ProfileFailureLogout | app.py:103-111 | after a failed profile fetch, pressing Logout returns the session to its initial state; without the press it is kept |

## Left out

- Cognito and `boto3` calls: a foreign identity provider. Only its outcome is modelled: a token, a not-authorized error or another failure.
- `requests` calls, headers and URL construction: network I/O. Only the HTTP status code, the parsed body or a connection error is modelled.
- Streamlit rendering, `st.rerun`, `st.stop`, columns, tabs, expanders and the pandas table: UI. A run that `st.stop` ends is modelled as leaving the session unchanged.
- The success and error message texts: shown text only. They are modelled by the kind of notice.
- `fetch_orders`, `fetch_inventory` and `fetch_analytics`, with their fallbacks (`[]`, `{"revenue": 0, "orders": 0}`): pass-through reads with no logic of their own.
- `add_product` and the product form: the `float(price)` conversion is floating point, and the `min_value` bounds are enforced by the UI library.
- The backend's own handling of a status update: it is outside this repository. `Orders.Refetched` assumes the backend applied exactly the requested change.
- config.py: deployment constants only.
