# powerNest core, modelled in Dafny

powerNest is a React front end for an electric-vehicle marketplace. Drivers
find charging stations and book charging slots, mechanic visits and charger
installations. Providers run a charging hub, a mechanic shop or an
installation business. They see their customers' bookings and move them
through their life cycle. The application keeps everything in memory and in
three browser-storage records. Its seed data is a handful of constant
stations, services, one vehicle and one booking.

This project models the application's logic:

- **The shell** (`App.Session`): the signed-in user, the current view, the
  station filter, the vehicle, the booking list and the three stored records.
  It also covers:
  - the handlers that change them (add a booking, log in, log out, navigate);
  - the effect that redirects each role away from the views it may not stay on;
  - the charging interval, which raises the battery level by half a point per
    tick up to 100.
- **The booking list** (`BookingList`, `BookingScreens`):
  - the driver's cancel action and the provider's status updates;
  - the actions each status offers and the status tabs;
  - the queue's daily revenue and its Active Now count.
- **The provider dashboard figures** (`ProviderStats`): its booking list, its
  own revenue rule, the resource count and grid, and the truncated lists.
- **Prices** (`Pricing`, `Numbers`): the booking price is text such as
  "₹450.00". Revenue figures read it back with the source's
  `replace`/`parseFloat` chain. Prices are built with `String(x)` and
  `toFixed(2)`.
- **Booking construction and search**:
  - `StationSearch`: the booking built from a station, and the search and type
    filter over the stations;
  - `Mechanics`: the booking built from a mechanic service, including the
    installation test.
- **The sign-up wizard** (`SignUp`): its steps, its form, and the user and
  vehicle records it builds.
- **The remaining screens**:
  - `DashboardFigures`: the driver dashboard's figures;
  - `Navigation`: the bottom navigation's tab sets;
  - `Profile`: the profile screen's forms and saves;
  - `Fixtures` and `SeedFacts`: the seed data and facts about it.

State that the source changes in place is modelled as classes:
- `Session`, `StationScreen`, `MechanicScreen`, `Wizard`, `ProfileEditor` and
  `ProviderQueue`;
- their handlers are methods with `modifies` clauses.

Child screens change the shell through the `Session` setters, as the
components call their parent's `set...` callbacks. Pure derivations are
functions, and their properties are lemmas.

Numbers are kept exact:
- Station and service prices are natural numbers of hundredths. The seed
  price 18.50 is 1850.
- Battery levels and capacities are `real`.
- NaN is `None` in an `Option<real>`. Revenue sums propagate it as JavaScript
  does.

The driver role, spelled `'user'` in the source, is `Driver` here.

Two points of the code's behaviour shape the model:
- `cancelBooking` and `updateStatus` do not check the current status. Only
  the buttons each status shows keep the steps legal. `SetStatus` overwrites
  any status, and `CancelOverwritesCompleted` exhibits this.
  `OfferedActionsAreLegal` states what the buttons guarantee.
- The `JSON.parse` calls in src/App.tsx:19-43 are unguarded. The model's
  storage holds typed records, each present or absent.

## Model

| member | source | states |
|---|---|---|
| Types.ProviderPrefixedViews | src/types.ts:5 | Of the nine views exactly provider_dashboard, provider_services and provider_bookings carry the `provider_` prefix, and distinct views have distinct identifiers |
| App.RoleHome | src/App.tsx:97 | The landing view chosen by role is one that role may stay on |
| App.Reconcile | src/App.tsx:49-53 | The redirect always yields a view the role may stay on. It keeps the view iff the view is already permitted, and otherwise sends the role to its home view |
| App.ReconcileIdempotent | src/App.tsx:45-57 | Redirecting a redirected view changes nothing: the effect's output is a fixed point for the same role |
| App.ReconcileRedirects | src/App.tsx:49-53 | A provider is moved exactly from dashboard, stations, services, bookings and admin. A driver is moved exactly from the three provider views |
| App.Settle | src/App.tsx:45-57 | With a user signed in the view ends up permitted for their role; with nobody signed in it is left alone |
| App.InitialView | src/App.tsx:24-31 | The first view is provider_dashboard iff a stored user is a provider, otherwise dashboard, and it is the stored role's home view |
| App.ScreenFor | src/App.tsx:109-130 | Every view renders a screen. The driver dashboard is rendered exactly for dashboard and for provider_services, the one view without a case |
| App.TickLevel | src/App.tsx:71-74 | One tick never passes 100. Below 100 it strictly raises the level by at most 0.5, and it adds exactly 0.5 unless clamped |
| App.Ceil | src/App.tsx:67-78 | The ceiling bounds the tick count: x ≤ n < x + 1 |
| App.TickStep | src/App.tsx:69-74 | Below 100 each tick brings the level exactly one step nearer to full |
| App.ChargesToFull | src/App.tsx:67-78 | From any level ≤ 100 the ticks climb strictly. They stay below 100 until the last one, which lands exactly on 100 |
| App.IterateLast | src/App.tsx:70-75 | Ticking n + 1 times is ticking n times, then once more |
| App.Session.Screen | src/App.tsx:105-107 | The sign-up screen is shown exactly when nobody is signed in |
| App.Session.constructor | src/App.tsx:19-43 | Each cell is the stored record or its seed. The view is InitialView of the stored user, and the effects write all three records back |
| App.Session.AddBooking | src/App.tsx:80-86 | The new booking goes first, ahead of all earlier ones in order. A charging booking starts charging and goes to the dashboard (then redirected for the role). Other kinds leave the vehicle and view unchanged. Only the changed records are written back |
| App.Session.Tick | src/App.tsx:67-78 | While charging below 100, the level becomes TickLevel of the old level and the vehicle record is saved; nothing else changes. Otherwise nothing changes, whoever is signed in |
| App.Session.ChargeUntilStopped | src/App.tsx:67-78 | Running the interval until it stops leaves a charging vehicle at exactly 100, still charging, after StepsToFull ticks, with the stored vehicle record matching it. Any other vehicle and the storage are left unchanged. The interval is then disarmed. User, view, filter and bookings are unchanged |
| App.Session.Login | src/App.tsx:94-98 | The user and vehicle are replaced and the view is the role's home. The user and vehicle records are saved, and the bookings are untouched |
| App.Session.Logout | src/App.tsx:88-92 | Nobody is signed in, storage is empty, the view is dashboard and the sign-up screen shows. The vehicle and bookings stay in memory |
| App.Session.Navigate | src/App.tsx:147 | The view becomes the requested one, redirected for the signed-in role. Nothing else changes |
| App.Session.NavigateToStations | src/App.tsx:100-103 | The filter is set and the view becomes stations (redirected for the role). Nothing else changes |
| App.Session.SetStationFilter | src/App.tsx:114 | Only the station filter changes |
| App.Session.SetBookings | src/App.tsx:63-65 | The list is replaced and saved. Nothing else changes |
| App.Session.SetVehicle | src/App.tsx:59-61 | The vehicle is replaced and saved. Nothing else changes |
| App.Session.SetUser | src/App.tsx:45-57 | The user is replaced and saved, and the view is redirected for the new role |
| BookingList.SetStatus | src/components/BookingsView.tsx:12-14 | Same length and order. Every booking with the id takes the new status with its other fields unchanged, and every other booking is unchanged |
| BookingList.SetStatusAbsent | src/components/BookingsView.tsx:12-14 | Updating an id no booking has leaves the list as it was |
| BookingList.SetStatusIdempotent | src/components/BookingsView.tsx:12-14 | Cancelling, or setting any status, twice equals doing it once |
| BookingList.CancelOverwritesCompleted | src/components/BookingsView.tsx:12-14 | Called directly, cancellation overwrites a Completed booking: no status check |
| BookingList.StatusStylesDistinct | src/components/BookingsView.tsx:16-24 | Each of the four statuses has its own style, none of them the default, and any other text gets the default |
| BookingList.OfferedActionsAreLegal | src/components/ProviderBookingsView.tsx:140-165 | The provider's buttons plus the driver's cancel button (BookingsView.tsx:63-71) offer exactly the legal transitions. Each raises the stage, and Completed and Cancelled offer nothing |
| BookingList.TabFilterSpec | src/components/ProviderBookingsView.tsx:31 | Tab All lists the whole list. A status tab lists exactly the bookings with that status |
| BookingList.PendingOnlyUnderAll | src/components/ProviderBookingsView.tsx:84 | Among the offered tabs, a Pending booking is listed only under All |
| BookingList.DailyRevenueSkips | src/components/ProviderBookingsView.tsx:34-36 | A Pending or Cancelled booking anywhere in the list adds nothing to the daily revenue |
| BookingList.DailyRevenueCounts | src/components/ProviderBookingsView.tsx:34-36 | A Confirmed or Completed booking adds its parsed price (NaN included) to the revenue of the rest |
| BookingList.DailyRevenueExample | src/components/ProviderBookingsView.tsx:34-36 | A confirmed "₹450.00" beside a cancelled "₹1,499" gives 450 |
| BookingList.ActiveNowCounts | src/components/ProviderBookingsView.tsx:62 | Active Now grows by one for each Confirmed booking and by nothing for others |
| BookingScreens.CancelBooking | src/components/BookingsView.tsx:12-14 | The shell's list becomes SetStatus(old list, id, Cancelled) and is saved. User, view, vehicle and station filter are unchanged |
| BookingScreens.PressCancel | src/components/BookingsView.tsx:63-71 | The cancel button, offered only for a booking that is neither Cancelled nor Completed, sets every booking with that id to Cancelled, so that booking makes a legal transition. The list is saved; user, view, vehicle and filter are unchanged |
| BookingScreens.ProviderQueue.Listed | src/components/ProviderBookingsView.tsx:31 | The queue lists the whole list under All. Under any tab, a booking is listed if and only if it is one of the list's and belongs to the tab |
| BookingScreens.ProviderQueue.constructor | src/components/ProviderBookingsView.tsx:25 | The queue opens on the All tab |
| BookingScreens.ProviderQueue.SelectTab | src/components/ProviderBookingsView.tsx:84-87 | Only an offered tab (never Pending) can be selected |
| BookingScreens.ProviderQueue.UpdateStatus | src/components/ProviderBookingsView.tsx:27-29 | The shell's list becomes SetStatus(old list, id, status) and is saved. User, view, vehicle and station filter are unchanged |
| BookingScreens.ProviderQueue.PressAction | src/components/ProviderBookingsView.tsx:140-165 | A button shown for the booking's status sets every booking with that id to the new status, a legal, stage-raising transition for that booking. The list is saved; user, view, vehicle and filter are unchanged |
| Pricing.PriceText | src/components/ProviderBookingsView.tsx:36 | After removing the first "₹" and the first ",", text left empty becomes "0", so the parsed text is never empty |
| Pricing.Add | src/components/ProviderBookingsView.tsx:36 | A sum is NaN iff either operand is NaN |
| Pricing.TotalIsNaN | src/components/ProviderDashboard.tsx:25 | The summed prices are NaN iff some booking's price reads as NaN |
| Pricing.TotalAppend | src/components/ProviderDashboard.tsx:25 | The total of two lists joined is the sum of their totals |
| Pricing.PriceOfNumberText | src/components/MechanicView.tsx:45 | A price printed as "₹" + String(x) reads back as x |
| Pricing.PriceOfFixed2 | src/components/ChargingStationView.tsx:56 | A price printed as "₹" + x.toFixed(2) reads back as x |
| Pricing.EmptyPriceIsZero | src/components/ProviderBookingsView.tsx:36 | An empty price, or one holding only "₹", counts as 0 |
| Pricing.CommaRemoved | src/components/ProviderBookingsView.tsx:36 | "₹1,499" reads as 1499 |
| Pricing.SecondCommaStopsParse | src/components/ProviderBookingsView.tsx:36 | "₹1,00,000" reads as 100: only the first comma is removed |
| Numbers.ParseFloat | src/components/ProviderBookingsView.tsx:36 | parseFloat yields a number iff, after an optional sign, the text starts with a digit or with a point and a digit |
| Numbers.ParseInt | src/components/AuthView.tsx:52-53 | parseInt yields a number iff, after an optional sign, the text starts with a digit |
| Numbers.NatTextThenStop | src/components/AuthView.tsx:61 | A whole number followed by text that does not continue it parses back as that number |
| Numbers.ParseFixed2 | src/components/ChargingStationView.tsx:56 | parseFloat(x.toFixed(2)) is x |
| Numbers.ParseNumberText | src/components/MechanicView.tsx:45 | parseFloat(String(x)) is x |
| Numbers.ParseIntNatText | src/components/AuthView.tsx:52-53 | parseInt(String(n)) is n |
| Text.Lower | src/components/ChargingStationView.tsx:31-32 | Lower-casing keeps the length and lower-cases each character |
| Text.ContainsIff | src/components/ChargingStationView.tsx:31-32 | `includes` holds iff the text occurs at some position |
| Text.RemoveFirstSplit | src/components/ProviderBookingsView.tsx:36 | `replace` with a one-character pattern removes exactly the first occurrence and keeps everything else in order |
| ProviderStats.RevenuesAgreeWithoutPending | src/components/ProviderDashboard.tsx:24-25 | With no Pending booking, the dashboard's revenue equals the queue's daily revenue (ProviderBookingsView.tsx:34-36) |
| ProviderStats.PendingCountsOnlyOnDashboard | src/components/ProviderDashboard.tsx:25 | A lone Pending "₹1,499" booking earns 1499 on the dashboard and 0 in the queue |
| ProviderStats.ResourceCount | src/components/ProviderDashboard.tsx:16-22 | Mechanics and installers count technicians, 3 when missing, NaN or 0. Everyone else counts plugs, 4 likewise. The count is never 0 |
| ProviderStats.AvailableResources | src/components/ProviderDashboard.tsx:28-29 | Available is the resource count less the two always-busy resources; AvailableMatchesGrid ties it to the grid |
| ProviderStats.OnePlugShowsMinusOne | src/components/ProviderDashboard.tsx:28-29 | With one plug the dashboard shows −1 available |
| ProviderStats.ResourceGrid | src/components/ProviderDashboard.tsx:170-172 | Cells are numbered 1..count (none for a count ≤ 0), and cell i is busy iff i ∈ {1, 3} |
| ProviderStats.AvailableMatchesGrid | src/components/ProviderDashboard.tsx:28-29 | From three resources up the header's available count equals the grid's free cells. For one or two resources it is one fewer than the free cells, and for a negative count the grid is empty while the header shows a negative number |
| ProviderStats.BusyCellCount | src/components/ProviderDashboard.tsx:170-172 | The grid has 2 busy cells from 3 cells up, 1 busy cell for 1–2 cells, and 0 busy cells otherwise |
| ProviderStats.RecentInstallations | src/components/ProviderDashboard.tsx:71 | Exactly the first min(5, n) of the n non-Cancelled bookings, in order |
| ProviderStats.ActivityLog | src/components/ProviderDashboard.tsx:244 | Exactly the first min(3, n) of the n non-Cancelled bookings, in order, so a prefix of the installer list |
| StationSearch.TypeFilterTable | src/components/ChargingStationView.tsx:34-41 | The Fast and Hyper filters are the same filter and admit exactly Fast and Hyper. Standard and Mechanic admit only their own type, and All admits everything |
| StationSearch.FilteredStationsSpec | src/components/ChargingStationView.tsx:30-44 | A station is listed iff it matches the lower-cased search in its name or address and passes the type filter. The filter keeps the stations' order, and an empty search under All lists every station |
| StationSearch.FirstSlot | src/components/ChargingStationView.tsx:54 | The time is the first slot when there is a non-empty one, and '14:30' in every other case (no slots, an empty list, an empty first slot). It is never empty |
| StationSearch.StationPriceValue | src/components/ChargingStationView.tsx:56 | The booking's price text reads back as the station price (mechanic) or 30 × the price (charger) |
| StationSearch.BookingFromStation | src/components/ChargingStationView.tsx:49-60 | Kind Mechanic iff the station is a mechanic, else Charging. Status Confirmed, date Oct 24, 2024, time FirstSlot. Title, location and vehicle id come from the station and vehicle, and the price reads back as above |
| StationSearch.ModalAgreesWithBooking | src/components/ChargingStationView.tsx:228-229 | The modal's price is the booking's, except for a charger priced 0. The modal says 'Service' iff the booking is not a charging one |
| StationSearch.ModalFallbackPrice | src/components/ChargingStationView.tsx:228 | A charger priced 0, and the modal with nothing selected, show the price of 30 units at 15: 450 |
| StationSearch.StationScreen.Listed | src/components/ChargingStationView.tsx:30-44 | A station is listed if and only if it is a seed station that passes the screen's search and filter |
| StationSearch.StationScreen.constructor | src/components/ChargingStationView.tsx:21-23 | The screen opens with an empty search, no selection, the modal closed and the shell's filter |
| StationSearch.StationScreen.Search | src/components/ChargingStationView.tsx:21 | Only the search text changes |
| StationSearch.StationScreen.ChangeFilter | src/components/ChargingStationView.tsx:26-28 | The shell's filter is set. The selection is cleared iff the filter changed |
| StationSearch.StationScreen.Select | src/components/ChargingStationView.tsx:66-67 | The clicked station becomes the selection |
| StationSearch.StationScreen.OpenBooking | src/components/ChargingStationView.tsx:192-196 | The station is selected and the modal opens |
| StationSearch.StationScreen.CloseModal | src/components/ChargingStationView.tsx:224 | Only the modal flag changes |
| StationSearch.StationScreen.Confirm | src/components/ChargingStationView.tsx:46-64 | With nothing selected, nothing changes. Otherwise the station's booking is prepended, saved, and the modal closes. A charger starts charging, saves the vehicle and goes to the dashboard, while a mechanic leaves the vehicle, its record and the view alone. User and filter never change |
| Mechanics.InstallationMeansOccurrence | src/components/MechanicView.tsx:36 | A service is an installation iff "installation" occurs in its lower-cased title, whatever the title's capitalisation |
| Mechanics.ServicePriceValue | src/components/MechanicView.tsx:45 | The price text reads back as the service price |
| Mechanics.BookingFromService | src/components/MechanicView.tsx:38-49 | Installation iff the title test holds, else Mechanic, never Charging. Location is Your Residence or powerNest Service Center accordingly. Status Confirmed, date Oct 25, 2024, time 09:00. Title, vehicle id and payment come from the inputs, and the price reads back |
| Mechanics.ModalAgreesWithBooking | src/components/MechanicView.tsx:130-131 | The modal shows the booking's price and calls it an installation iff the booking is one. With nothing selected its price reads as NaN |
| Mechanics.MechanicScreen.constructor | src/components/MechanicView.tsx:14-15 | Nothing is selected and the modal is closed |
| Mechanics.MechanicScreen.Book | src/components/MechanicView.tsx:27-30 | The service is selected and the modal opens |
| Mechanics.MechanicScreen.CloseModal | src/components/MechanicView.tsx:126 | The modal closes and the selection stays |
| Mechanics.MechanicScreen.Confirm | src/components/MechanicView.tsx:32-53 | With nothing selected, nothing changes. Otherwise the service's booking is prepended and saved, and the modal closes. The vehicle, view, user and filter never change |
| SignUp.SetFieldFrame | src/components/AuthView.tsx:28-30 | An edit sets its own field and no other, and never the vehicle or business type |
| SignUp.ParseCount | src/components/AuthView.tsx:52-53 | A typed count is NaN iff parseInt finds no digit |
| SignUp.NewUser | src/components/AuthView.tsx:44-54 | The name is the business name for providers and the personal name for drivers. isPro is true and the role and email are as chosen. A provider's business type is the picked one or Fast Charging; a driver has none. plugCount is set iff the picked type is literally Fast Charging, and technicianCount iff it is EV Mechanic or Normal Installer; a set count is parseInt of its field |
| SignUp.Capacity | src/components/AuthView.tsx:61 | The parsed capacity unless it is NaN or 0, in which case 75. Never 0 |
| SignUp.NewVehicle | src/components/AuthView.tsx:56-64 | Type, brand and model come from the form. Capacity is Capacity(typed text), level 65, not charging |
| SignUp.CapacityExamples | src/components/AuthView.tsx:61 | A typed positive whole number is kept. The untouched field and text without a number give 75 |
| SignUp.CountRoundTrip | src/components/AuthView.tsx:52-53 | A count typed as a whole number is stored as that number |
| SignUp.DefaultedBusinessType | src/components/AuthView.tsx:51-52 | A provider with no picked type becomes Fast Charging without a plug count, so the dashboard shows 4 plugs (ProviderDashboard.tsx:22). A picked Fast Charging type keeps the typed count |
| SignUp.Wizard.Shown | src/components/AuthView.tsx:93-151 | In a reachable state, the credentials, business and onboarding panels show exactly on their own steps |
| SignUp.Wizard.constructor | src/components/AuthView.tsx:11-26 | The wizard starts at credentials, role driver, with the initial form |
| SignUp.Wizard.ChooseRole | src/components/AuthView.tsx:100-115 | On the credentials step only the role changes |
| SignUp.Wizard.Edit | src/components/AuthView.tsx:28-30 | Only the named form field changes |
| SignUp.Wizard.ChooseVehicleType | src/components/AuthView.tsx:28-30 | Only the vehicle type changes |
| SignUp.Wizard.Continue | src/components/AuthView.tsx:32-39 | Continue goes to business details for a provider and onboarding for a driver |
| SignUp.Wizard.PickBusinessType | src/components/AuthView.tsx:174-177 | The type is recorded and the wizard moves to onboarding |
| SignUp.Wizard.BackToCredentials | src/components/AuthView.tsx:155 | Back from business details goes to credentials |
| SignUp.Wizard.BackFromOnboarding | src/components/AuthView.tsx:205 | Back goes to business details for a provider and to credentials for a driver |
| SignUp.Wizard.Submit | src/components/AuthView.tsx:41-67 | The shell logs in with NewUser and NewVehicle, saves both records and lands on the role's home. Bookings and filter are unchanged. From the wizard, a provider's business type is always the picked one |
| DashboardFigures.RangeProperties | src/components/Dashboard.tsx:22 | The range is ≥ 0 for non-negative inputs, 0 at level 0, and non-decreasing in the level |
| DashboardFigures.PercentShown | src/components/Dashboard.tsx:40 | The shown percentage is the level rounded down |
| DashboardFigures.LowBatteryMatchesPercent | src/components/Dashboard.tsx:33 | The red battery shows iff the level is below 20, iff the shown percentage is below 20 |
| DashboardFigures.LiveResourcesSpec | src/components/Dashboard.tsx:25 | The live cards are exactly the non-Standard stations, in order |
| DashboardFigures.CardSlots | src/components/Dashboard.tsx:139 | A card shows exactly the first two slots, all of them when there are fewer, and none when the field is missing |
| DashboardFigures.ServiceButtonsPartitionTypes | src/components/Dashboard.tsx:56-88 | The Fast, Standard and Mechanic buttons cover every station type, each type by exactly one button, and Hyper is found under Fast |
| DashboardFigures.RecentHistory | src/components/Dashboard.tsx:158 | At most the first booking is shown, and it is empty iff the list is |
| DashboardFigures.RecentHistorySpec | src/components/Dashboard.tsx:172 | 'No recent history' shows iff nothing is shown, and a new booking is the one shown next |
| Navigation.InstallerTabsRelabelOnly | src/components/MobileBottomNav.tsx:30-38 | Installers and other providers get the same tab ids, under different labels |
| Navigation.AtMostOneActive | src/components/MobileBottomNav.tsx:45 | A bar's tab ids are distinct, so at most one tab is active |
| Navigation.TabsAreFixedPoints | src/components/MobileBottomNav.tsx:23-40 | Every tab offered to a role leads to a view that role may stay on, so the redirect leaves a click where it was aimed and the clicked tab is the active one |
| Navigation.ClickTab | src/components/MobileBottomNav.tsx:49 | A tab click lands on the tab's view; user, bookings, vehicle, storage and filter are unchanged |
| Profile.ProfileStays | src/components/ProfileView.tsx:26-28 | Profile is a view both roles may stay on, so saving the user never leaves the screen |
| Profile.ProfileEditor.constructor | src/components/ProfileView.tsx:15-18 | The forms are snapshots of the user and vehicle at mount time |
| Profile.ProfileEditor.EditName | src/components/ProfileView.tsx:56-61 | Only the user form's name changes |
| Profile.ProfileEditor.EditEmail | src/components/ProfileView.tsx:62-67 | Only the user form's email changes |
| Profile.ProfileEditor.EditBrand | src/components/ProfileView.tsx:88-94 | Only the vehicle form's brand changes, and only for a driver |
| Profile.ProfileEditor.EditModel | src/components/ProfileView.tsx:95-100 | Only the vehicle form's model changes, and only for a driver |
| Profile.ProfileEditor.SaveVehicle | src/components/ProfileView.tsx:20-24 | The vehicle is replaced by the form wholesale and saved, so the battery level and charging flag revert to their values at mount time. User, view, bookings and filter are unchanged |
| Profile.ProfileEditor.SaveUser | src/components/ProfileView.tsx:26-30 | The user is replaced by the form wholesale and saved; the other stored records stay. Role, id and business type are as at mount time, the profile view stays open, and vehicle, bookings and filter are unchanged |
| SeedFacts.SeedStationsWellFormed | src/constants.tsx:4-65 | Five stations with distinct ids, each with a non-empty slot list |
| SeedFacts.OneStandardStation | src/constants.tsx:34 | Exactly one seed station is Standard: s3 |
| SeedFacts.TwoMechanicStations | src/constants.tsx:46-59 | Exactly two seed stations are mechanics: m1 and m2 |
| SeedFacts.SeedLiveResources | src/constants.tsx:4-65 | The dashboard's live cards over the seeds are s1, s2, m1 and m2 |
| SeedFacts.NoLMeansNoInstallation | src/components/MechanicView.tsx:36 | A title whose lower-cased form has no 'l' is never an installation |
| SeedFacts.InstallationAt | src/components/MechanicView.tsx:36 | A title holding "Installation" at any position, capital I included, is an installation |
| SeedFacts.OneInstallationService | src/constants.tsx:67-96 | Of the four services exactly the fourth, "Home Installation", is an installation |
| SeedFacts.SeedVehicle | src/constants.tsx:98-106 | The seed vehicle has capacity 40.5, level 65 and is not charging. The dashboard shows 65 % and 171 km, not low |
| SeedFacts.SeedPriceIsNaN | src/constants.tsx:116 | The seed price starts with "â‚¹", not "₹", so nothing is stripped and it reads as NaN |
| SeedFacts.SeedRevenueIsNaN | src/constants.tsx:108-121 | The seed list is one Confirmed charging booking for v1, and both provider revenue figures over it are NaN |

## Left out

- Rendering: JSX markup, styling, icons, animations, the avatar image and the map pins. None of these has behaviour to state.
- Browser storage: JSON serialisation is assumed to round-trip. The stored records are typed values, so a stored record that fails to parse is not modelled; the code has no fallback for it.
- Timers: the 3000 ms charging interval, the booking modal's processing delays and the 2-second reset of the profile's saved flags. One interval firing is `App.Session.Tick`, and the saved flags are only set.
- React effect timing: every effect runs synchronously after the handler that triggers it.
- Randomness: booking, user and vehicle ids are parameters. Random plug numbers and map-pin positions are not modelled.
- The AI chat assistant and its external generative-AI service: these are foreign calls.
- The admin view, the service management view and the sidebar: they hold static figures or are never mounted by the shell.
- `Station.resources` is not modelled. It is optional and no core logic reads it.
- HTML `required` validation on the sign-up forms is not modelled: it cannot block a handler in this model.
- The "isOpen" toggle and resource hover on the provider dashboard are UI state with no effect on the figures.
- Numbers.ParseFloat: does not model leading whitespace, exponents, "Infinity" or hexadecimal forms of JavaScript's `parseFloat`; the texts the application parses never contain them.
- Numbers.ParseInt: does not model leading whitespace or other radixes.
- Text.Lower: lower-cases ASCII letters only, not full Unicode `toLowerCase`.
- Floating point: prices, products such as price × 30, and battery levels are exact (hundredths and `real`), not IEEE doubles. `toLocaleString` formatting of the dashboard revenue is not modelled.
- SignUp.NewUser: the avatar URL is built but not stated in the contract.
