# SmartThingies client state and onboarding logic, in Dafny

This project models the stateful core of the SmartThingies smart-home app. The app is a React Native client with a small FastAPI backend. The model covers:

- **Device toggle store** (`DeviceContext`). A map from device id to `{isOn, automationRules}`. `toggleDevice` flips one entry and creates it on first use.
- **Auth cell** (`Auth`). The signed-in user or `null`. Inside an `AuthProvider`, `setUser` replaces the value. The default context ignores it.
- **Screen handlers** (`SetupNewHome`, `SetupNewRoom`, `SetupNewDevice`, `Login`, `Register`). Each screen is a class that holds its React state. Its `handleNext`, `handleLogin` or `handleRegister` method checks the input, maps room and device names to ids (`Catalog`) and may send one request. It then writes AsyncStorage, sets the user, alerts and navigates.
- **Runtime** (`Runtime`). The handlers act on an `Env`. It holds the device's key/value storage and the ordered log of effects: alerts, requests, storage writes, `setUser` calls and navigations. A server answer is a `Response` value passed to the handler: a 2xx body, a non-2xx `detail`, or a transport failure.
- **Handler specifications**. Each handler method is proved equal to a pure `...Effects` function of its state and the answer. The properties are lemmas about that function. They state which requests are sent (`Requests`), what storage becomes (`Replay`), who the user becomes (`UserAfter`) and where the app goes (`Navigations`).
- **Onboarding hand-off** (`Onboarding`). The name stored by the home step is what the room step shows. The room stored by the room step is what the device step sends.
- **Credential forms** (`AuthForms`). The register screen sends whitespace-only credentials that the login screen refuses.
- **Backend** (`UserRoutes`). `create_user` rejects a taken email and otherwise appends one row. Unique emails stay unique.
- **JavaScript string behaviour** (`JsText`). `trim` with the ECMAScript whitespace set. Integer `toString`, with a parser proving that the stored `homeId` reads back as the returned id.

Two behaviours of the code that the model keeps:

- Only the home and room steps persist their choices. The device step writes nothing to storage.
- A device with no entry in the toggle store reads as off, and its first toggle creates an entry that is on.

## Model

| member | source | states |
|---|---|---|
| `DeviceContext.Toggled` | SmartThingies/context/DeviceContext.tsx:22-29 | the updater adds the toggled id to the keys and nothing else, and that id's switch reads the opposite of before |
| `DeviceContext.DeviceProvider.constructor` | SmartThingies/context/DeviceContext.tsx:19 | the store starts as the empty map |
| `DeviceContext.DeviceProvider.ToggleDevice` | SmartThingies/context/DeviceContext.tsx:21-30 | the new state is the updater applied to the old one, and the toggled id's switch reads the opposite of before |
| `DeviceContext.ToggleUnseen` | SmartThingies/context/DeviceContext.tsx:21-29 | any id without an entry, with no existence check, gets `{isOn: true, automationRules: []}` |
| `DeviceContext.ToggleExisting` | SmartThingies/context/DeviceContext.tsx:26-27 | an existing entry's `isOn` is negated and its rules are kept exactly |
| `DeviceContext.ToggleFrame` | SmartThingies/context/DeviceContext.tsx:22-23 | the keys grow by at most the toggled id and every other entry is unchanged |
| `DeviceContext.ToggleTwice` | SmartThingies/context/DeviceContext.tsx:24-27 | two toggles restore an existing entry exactly, and leave the default off entry for a new id |
| `DeviceContext.ToggleCommutes` | SmartThingies/context/DeviceContext.tsx:22-29 | toggles of different ids commute |
| `DeviceContext.ToggleAllParity` | SmartThingies/context/DeviceContext.tsx:21-29 | after any run of toggles an id is on iff it was on XOR it was toggled an odd number of times |
| `DeviceContext.ToggleAllKeepsRules` | SmartThingies/context/DeviceContext.tsx:27 | no run of toggles changes an existing entry's automation rules |
| `Auth.AuthContext.Default` | SmartThingies/context/AuthContext.tsx:13-16 | outside a provider the user is null |
| `Auth.AuthContext.Provider` | SmartThingies/context/AuthContext.tsx:19 | a provider's user cell starts as null |
| `Auth.AuthContext.SetUser` | SmartThingies/context/AuthContext.tsx:10 | a provider's cell takes the whole new value, null included, with no check; the default setter changes nothing |
| `JsText.Trim` | SmartThingies/app/login.tsx:34 | `trim` never lengthens a string and leaves no whitespace or line terminator at either end |
| `JsText.TrimStartDropsPrefix` | SmartThingies/app/login.tsx:34 | trim's left pass removes exactly the longest whitespace prefix |
| `JsText.TrimEndDropsSuffix` | SmartThingies/app/login.tsx:34 | trim's right pass removes exactly the longest whitespace suffix |
| `JsText.TrimEmptyIffBlank` | SmartThingies/app/setup-new-home.tsx:28 | `s.trim()` is empty iff every character of `s` is whitespace or a line terminator |
| `JsText.IntToString` | SmartThingies/app/setup-new-home.tsx:52 | `id.toString()` is never empty and starts with a minus sign exactly for negative ids |
| `JsText.IntToStringRoundTrip` | SmartThingies/app/setup-new-home.tsx:52 | the stored decimal form of the home id parses back to the same id |
| `Catalog.RoomId` | SmartThingies/app/setup-new-room.tsx:55-62 | the room ternary (repeated in the device screen) yields either no id or an id from 2 to 4 |
| `Catalog.DeviceTypeId` | SmartThingies/app/setup-new-device.tsx:87-100 | the device `switch` always yields a type id, one of 1, 2, 3 or the default 7 |
| `Catalog.RoomIdMatchesTable` | SmartThingies/app/setup-new-device.tsx:70-77 | the room mapping is exactly Living Room→2, Bedroom→3, Dining Room→4, and rejects every other name |
| `Catalog.RoomIdRangeAndInjective` | SmartThingies/app/setup-new-room.tsx:55-62 | accepted room ids lie in {2,3,4} and distinct names get distinct ids |
| `Catalog.DeviceTypeIdMatchesTable` | SmartThingies/app/setup-new-device.tsx:87-100 | the type mapping is total: Smart bulb→2, Vacuum cleaner→1, Humidifier→3, anything else→7 |
| `SetupNewHome.NextEffects` | SmartThingies/app/setup-new-home.tsx:26-65 | `handleNext` always ends with an alert or a navigation, and sends its request first exactly when the trimmed name is non-empty |
| `SetupNewHome.NameHomeScreen.constructor` | SmartThingies/app/setup-new-home.tsx:21 | the home name starts empty |
| `SetupNewHome.NameHomeScreen.SaveHome` | SmartThingies/app/setup-new-home.tsx:52-56 | the success path writes `homeId` then `homeName`, then pushes the room screen |
| `SetupNewHome.NameHomeScreen.HandleNext` | SmartThingies/app/setup-new-home.tsx:26-65 | the effects performed and the storage afterwards are those of `NextEffects` |
| `SetupNewHome.BlankNameRejected` | SmartThingies/app/setup-new-home.tsx:61-64 | an empty or whitespace-only name only alerts "Please enter a name for your home." and sends nothing |
| `SetupNewHome.NamedHomeRequested` | SmartThingies/app/setup-new-home.tsx:39-42 | any other name sends exactly one request `{user_id: 3, home_name}`, with the name untrimmed |
| `SetupNewHome.HomeFailureWritesNothing` | SmartThingies/app/setup-new-home.tsx:50-60 | a failed or id-less answer ends with "Something went wrong. Please try again.", with no write and no navigation |
| `SetupNewHome.SuccessShape` | SmartThingies/app/setup-new-home.tsx:28-56 | a non-blank name with a 2xx answer carrying an id sends the create-home request and then runs the saving path |
| `SetupNewHome.SavedTrace` | SmartThingies/app/setup-new-home.tsx:52-56 | the saving path writes `homeId` and `homeName` and pushes the room screen once, after both writes |
| `SetupNewHome.HomeSuccessStores` | SmartThingies/app/setup-new-home.tsx:52-56 | on success `homeId` is the id's string form and `homeName` the typed name, both written before the single push to the room screen |
| `SetupNewRoom.NextEffects` | SmartThingies/app/setup-new-room.tsx:46-75 | `handleNext` always ends with an alert or a navigation and never sends a request |
| `SetupNewRoom.AddRoomScreen.constructor` | SmartThingies/app/setup-new-room.tsx:23-27 | the home name and selection start as "" |
| `SetupNewRoom.AddRoomScreen.LoadHomeName` | SmartThingies/app/setup-new-room.tsx:30-43 | a stored home name replaces the shown one only when it is non-empty |
| `SetupNewRoom.AddRoomScreen.SelectRoom` | SmartThingies/app/setup-new-room.tsx:96 | the picker sets the selection |
| `SetupNewRoom.AddRoomScreen.HandleNext` | SmartThingies/app/setup-new-room.tsx:46-75 | the effects performed and the storage afterwards are those of `NextEffects` |
| `SetupNewRoom.UnknownRoomRejected` | SmartThingies/app/setup-new-room.tsx:64-67 | an unlisted room only alerts "Invalid room selected.", with no write and no navigation |
| `SetupNewRoom.InitialSelectionRejected` | SmartThingies/app/setup-new-room.tsx:49-67 | the initial "" passes the null check and is rejected by the mapping check |
| `SetupNewRoom.KnownRoomStored` | SmartThingies/app/setup-new-room.tsx:69-70 | a listed room's name (not its id) is stored under `selectedRoom` before the single replace to the device screen, with no request |
| `SetupNewDevice.NextEffects` | SmartThingies/app/setup-new-device.tsx:62-131 | `handleNext` always ends with an alert or a navigation, sends first exactly when a device is chosen and the room is listed, and never writes storage |
| `SetupNewDevice.AddDeviceScreen.constructor` | SmartThingies/app/setup-new-device.tsx:26-28 | device, home name and room start as "" |
| `SetupNewDevice.AddDeviceScreen.LoadSelectedRoom` | SmartThingies/app/setup-new-device.tsx:31-44 | a stored room replaces the selection only when it is non-empty |
| `SetupNewDevice.AddDeviceScreen.LoadHomeName` | SmartThingies/app/setup-new-device.tsx:46-59 | a stored home name replaces the current one only when it is non-empty |
| `SetupNewDevice.AddDeviceScreen.SelectDevice` | SmartThingies/app/setup-new-device.tsx:151 | the picker sets the device |
| `SetupNewDevice.AddDeviceScreen.HandleNext` | SmartThingies/app/setup-new-device.tsx:62-131 | the effects performed are those of `NextEffects`, and storage is untouched |
| `SetupNewDevice.NoDeviceRejected` | SmartThingies/app/setup-new-device.tsx:63-66 | with no device selected, whatever the room, only "Please select a device before continuing." appears and nothing is sent |
| `SetupNewDevice.UnknownRoomRejected` | SmartThingies/app/setup-new-device.tsx:79-82 | a selected device in any unlisted room, "" included, only alerts "Invalid room selected." and sends nothing |
| `SetupNewDevice.RequestPayload` | SmartThingies/app/setup-new-device.tsx:109-113 | any request sent is the only one: `{name: device, type_id ∈ {1,2,3,7}, room_id ∈ {2,3,4}}`, with the room's listed id |
| `SetupNewDevice.ResponseHandled` | SmartThingies/app/setup-new-device.tsx:119-130 | a 2xx answer alerts success and replaces to the tabs; a non-2xx answer ends with "Failed to add device."; a transport failure ends with the generic error; none writes storage |
| `Login.LoginEffects` | SmartThingies/app/login.tsx:32-69 | `handleLogin` always ends with a dialog or a navigation, and sends first exactly when neither trimmed field is empty |
| `Login.LoginScreen.constructor` | SmartThingies/app/login.tsx:26-28 | email and password start empty, "Remember me" unticked |
| `Login.LoginScreen.PressRememberMe` | SmartThingies/app/login.tsx:106 | the checkbox negates `rememberMe` |
| `Login.LoginScreen.CompleteLogin` | SmartThingies/app/login.tsx:49-61 | the success path sets a provider's user to the answer's user, writes storage and replaces to the tabs, in that order |
| `Login.LoginScreen.HandleLogin` | SmartThingies/app/login.tsx:32-69 | effects and storage are those of `LoginEffects`; a provider's user is the last one set |
| `Login.MissingFieldsRejected` | SmartThingies/app/login.tsx:34-37 | a blank email or password only alerts "Missing fields" and sends nothing |
| `Login.CredentialsSentUntrimmed` | SmartThingies/app/login.tsx:40-43 | otherwise the first effect is the login request with the email and password as typed |
| `Login.LoginSuccessSplit` | SmartThingies/app/login.tsx:49-61 | a success sets the user, writes `userEmail` only if remembered, writes `isLoggedIn`, then navigates, in that order |
| `Login.LoginSuccessUser` | SmartThingies/app/login.tsx:49-52 | after success the user is `{full_name, email}` from `response.data.user` |
| `Login.LoginSuccessStores` | SmartThingies/app/login.tsx:55-58 | success writes `userEmail` iff "Remember me" is ticked, and always `isLoggedIn = "true"` |
| `Login.LoginSuccessNavigates` | SmartThingies/app/login.tsx:55-61 | every write of a success precedes its single replace to the tabs |
| `Login.LoginFailureChangesNothing` | SmartThingies/app/login.tsx:62-67 | any other answer leaves user and storage unchanged and alerts "Login Failed" with the non-empty `detail`, else "An error occurred." |
| `Register.RegisterEffects` | SmartThingies/app/register.tsx:30-79 | `handleRegister` always ends with a dialog or a navigation, and sends first exactly when no field is empty |
| `Register.RegisterScreen.constructor` | SmartThingies/app/register.tsx:25-27 | all three fields start empty |
| `Register.RegisterScreen.HandleRegister` | SmartThingies/app/register.tsx:30-79 | effects and storage are those of `RegisterEffects`; a provider's user is the last one set |
| `Register.EmptyFieldRejected` | SmartThingies/app/register.tsx:32-35 | an empty field only alerts "Missing Fields" and sends nothing |
| `Register.FieldsSentAsTyped` | SmartThingies/app/register.tsx:44-48 | non-empty fields send one request `{fullname, email, password}` as typed |
| `AuthForms.BlankCredentialsRegisterOnly` | SmartThingies/app/register.tsx:32-35 | non-empty but whitespace-only credentials are sent as typed by the register screen and refused before any request by the login screen |
| `Register.RegisterSuccess` | SmartThingies/app/register.tsx:62-71 | success sets the user to `{full_name, email}` from the answer and writes `isLoggedIn = "true"` before the single replace to home setup |
| `Register.RegisterFailureChangesNothing` | SmartThingies/app/register.tsx:52-78 | any other answer leaves user and storage unchanged and alerts the non-empty `detail`, "Registration failed", or the transport error's message |
| `Onboarding.HomeNameHandOff` | SmartThingies/app/setup-new-room.tsx:33-36 | the name stored by a successful home step is the name the room screen restores |
| `Onboarding.RoomHandOff` | SmartThingies/app/setup-new-device.tsx:34-37 | the room stored by the room step is restored by the device step and sent as its listed id |
| `UserRoutes.FirstWithEmail` | backend/routes/user_routes.py:17 | the lookup finds the first row with the email, or shows that no row has it |
| `UserRoutes.InsertKeepsEmailsUnique` | backend/routes/user_routes.py:17-22 | appending a row whose email is absent keeps emails unique |
| `UserRoutes.UserTable.CreateUser` | backend/routes/user_routes.py:16-25 | a taken email raises 400 "Email already registered" and leaves the table unchanged. Otherwise exactly one row is appended and returned, with name and email copied and the password stored unhashed. Unique emails stay unique |

## Left out

- Rendering, styles and UI widgets are not modelled: JSX, `StyleSheet`, pickers, text inputs and the not-found screen. The picker and checkbox callbacks that change state are modelled.
- The root layout's redirect to `/login` when there is no user is not modelled. It is navigation wiring.
- The light-level store (`SliderContext`) is not modelled. It holds two floating-point cells with plain setters.
- The network calls (`fetch`, `axios`) are not modelled. A request is recorded as a `Send` effect, and the server's answer is a `Response` parameter.
- Request headers, the server address and JSON encoding are not modelled.
- A reply body that is not JSON is not modelled. In the source, `response.json()` would throw.
- `Runtime.Response`: a non-2xx `detail` is modelled as an optional string. A FastAPI validation error carries a list there instead.
- Login and register answers are modelled as carrying string name and email fields. The source would also store `undefined` fields.
- AsyncStorage is modelled as a map whose reads and writes always succeed. In the source a failed write throws into the handler's catch block, after earlier effects have happened. Reads that fail are only logged.
- The async interleaving of mount-time loads with user actions is not modelled. Loads and handlers run one at a time, in the order called.
- `console.log` and `console.error` output is not modelled.
- `DeviceContext.Toggled`: device ids are JavaScript numbers used as object keys. They are modelled as integers, so fractional, NaN and string-coerced keys are not modelled.
- `JsText.IntToString`: produces plain decimal digits for every integer. JavaScript switches to exponent notation from 10^21.
- `JsText.IsTrimmable`: takes the whitespace set from the ECMAScript standard. It does not track later Unicode changes to the space-separator category.
- `UserRoutes.UserTable.CreateUser`: SQLAlchemy session handling is not modelled: `add`, `commit`, `refresh`, transactions and concurrent requests. The database-assigned primary key is not modelled either, because the `User` model file is not part of this model.
- `UserRoutes.FirstWithEmail`: email comparison is exact string equality. A database collation that ignores case is not modelled.
- The other backend routes are not modelled: rooms, device groups and devices. Neither are the database setup, the app wiring or `api.py`. They are unconditional inserts or plumbing.
- The dashboard, search, devices and settings tabs are not modelled. They are context for this core.
