# Shop app: cart, sign-up, change-password and avatar logic in Dafny

This project models the parts of a React Native shop app whose behaviour can be
stated precisely and checked. It also proves properties of that model.

- **Cart** (`cart.dfy`, `details_screen.dfy`). The product-detail screen keeps the
  cart in one storage entry. The entry holds the cart lines and a running `total`.
  Adding the current selection (product, colour, optional size, stepper quantity)
  does one of two things:
  - if a line with the same `(id, colour, size)` key exists, the first such line's
    quantity grows;
  - otherwise the selection is appended as a new line.

  The total then grows by the product's price times the quantity. The badge shows
  the sum of the line quantities. `Cart` holds the value-level definitions and the
  lemmas. `DetailsScreen.Screen` is a class whose fields are the screen's state:
  the storage slot, the displayed cart, the badge count, the stepper and the
  selection. Its methods update those fields in place.
- **Sign-up** (`sign_up.dfy`). There are three validators, one per field. Each
  rewrites its own field of the error record as the user types. A submit runs a
  fixed chain of guards and the first failing guard decides the message. A form
  that passes every guard sends a request with trimmed fields. The submit button
  is disabled only by an email or password error.
- **Change password** (`change_password.dfy`). Five ASCII-based strength flags are
  recomputed from the new password on every keystroke. A submit must pass three
  guards before the server is called.
- **Avatar** (`profile_image.dfy`). This covers how a stored avatar value becomes
  an image address and when the placeholder icon is shown. It also covers how the
  image's load events drive the `error` and `loading` flags.
- `js_string.dfy` models JavaScript's `trim`, `startsWith` and `endsWith`.
  `nullable.dfy` holds `Option`, which stands for `null` and for an absent storage
  entry.

Notes on what the code does and does not do:
- The code raises the stored total by `price × quantity` of the incoming product. It
  does not recompute the total from the lines. `Cart.AddConsistentIff` proves exactly
  when this keeps the total equal to the lines' worth: when the line is new, or when
  the incoming price equals the price already stored on the matching line.
- The code does not reject a non-positive quantity. The stepper alone keeps the
  quantity at 1 or more, and that is the invariant `Screen.Valid`.
- The code has no remove, set-quantity or clear operations. It does not drop
  malformed stored lines and does not surface storage write errors. None of these
  is modelled.

## Model

| member | source | states |
|---|---|---|
| Cart.FindIndex | app/screens/DetailsScreen.tsx:87-89 | the result is -1 exactly when no line has the key; otherwise it is the first line with that key |
| Cart.MergeExisting | app/screens/DetailsScreen.tsx:87-93 | with a matching line, only that line's quantity changes, by exactly the added quantity; its title, price, image, colour and size, every other line, the order and the length stay |
| Cart.MergeNew | app/screens/DetailsScreen.tsx:94-96 | with no matching line, the new line is appended, the old lines are an unchanged prefix and the length grows by one |
| Cart.MergeKeys | app/screens/DetailsScreen.tsx:87-97 | the set of keys after an add is the old set plus the added line's key |
| Cart.MergeKeepsKeysUnique | app/screens/DetailsScreen.tsx:87-97 | if no key occurs twice before an add, none occurs twice after it |
| Cart.MergeCount | app/screens/DetailsScreen.tsx:105-109 | the badge count (sum of quantities) after an add is the old count plus the added quantity |
| Cart.MergeWorth | app/screens/DetailsScreen.tsx:87-99 | the lines' worth grows by the added quantity times the price of the line that receives it (the stored line's price on a merge) |
| Cart.AddConsistentIff | app/screens/DetailsScreen.tsx:91-99 | for a cart whose total equals its worth and a quantity of at least 1, the total still equals the worth after the add if and only if the line is new or the incoming price equals the stored line's price |
| Cart.RepeatedAddMerges | app/screens/DetailsScreen.tsx:71-99 | adding P1 once and then twice more gives one line of quantity 3 that keeps the first title and image, with total 3000000 |
| Cart.DistinctVariantsStaySeparate | app/screens/DetailsScreen.tsx:87-96 | any two lines whose keys differ (another product, colour or size) added to an empty cart give two lines, in the order they were added |
| Cart.RepricedAddDrifts | app/screens/DetailsScreen.tsx:93-99 | re-adding a line at a new price leaves the total (2500) different from the lines' worth (2000) |
| DetailsScreen.Screen.constructor | app/screens/DetailsScreen.tsx:20-24 | the screen starts with quantity 1, the empty cart, count 0, colour "Đen" and no size |
| DetailsScreen.Screen.Selection | app/screens/DetailsScreen.tsx:76-84 | the new line carries the product's id, name, price and image, the stepper quantity and the selected colour and size |
| DetailsScreen.Screen.Decrease | app/screens/DetailsScreen.tsx:148 | the minus button lowers the quantity by one but never below 1, so the stepper invariant (quantity at least 1) holds afterwards |
| DetailsScreen.Screen.Increase | app/screens/DetailsScreen.tsx:152 | the plus button raises the quantity by one and keeps it at 1 or more |
| DetailsScreen.Screen.SelectColor | app/screens/DetailsScreen.tsx:162 | choosing a colour sets the selected colour and keeps the stepper invariant |
| DetailsScreen.Screen.SelectSize | app/screens/DetailsScreen.tsx:180 | choosing a size sets the selected size and keeps the stepper invariant |
| DetailsScreen.Screen.LoadCart | app/screens/DetailsScreen.tsx:54-69 | a stored cart becomes the displayed cart and the count becomes its sum of quantities; with no stored cart, both stay as they were; the stepper invariant is kept |
| DetailsScreen.Screen.AddToCart | app/screens/DetailsScreen.tsx:71-115 | the stored cart (or the empty cart if none is stored) gets the selection merged in and its total raised; the result is both stored and displayed; the count is the old stored count plus the quantity; unique keys stay unique |
| DetailsScreen.AddTwice | app/screens/DetailsScreen.tsx:87-99 | two adds of the same selection into an empty slot leave one line holding twice the quantity |
| SignUp.EmailError | app/screens/SignUpScreen.tsx:22-29 | the email error is non-empty exactly when the text is non-empty and has no '@' |
| SignUp.PasswordError | app/screens/SignUpScreen.tsx:31-38 | the password error is non-empty exactly when the length is between 1 and 5 |
| SignUp.NameError | app/screens/SignUpScreen.tsx:40-47 | the name error is non-empty exactly when the length is 1 or 2 |
| SignUp.SubmitEnabled | app/screens/SignUpScreen.tsx:206 | the button is enabled exactly when both the email error and the password error are empty |
| SignUp.FirstFailure | app/screens/SignUpScreen.tsx:55-83 | each guard's message is produced exactly when every earlier guard passes and that guard fails, in the order: empty field, short name, no '@', short password, short phone; None exactly when all pass |
| SignUp.RequestFor | app/screens/SignUpScreen.tsx:85-95 | the request has the trimmed name, full name, email and phone, the untrimmed password, an empty address, gender "nam", status 1 and roles 1 |
| SignUp.PassingFormHasNoFieldErrors | app/screens/SignUpScreen.tsx:22-83 | a form that passes the guard chain shows no name, email or password error, and its submit button is enabled |
| SignUp.NameErrorDoesNotDisable | app/screens/SignUpScreen.tsx:203-206 | a too-short name shows an error but leaves the submit button enabled |
| SignUp.EnabledButEmptyIsRejected | app/screens/SignUpScreen.tsx:55-59 | an empty form shows no field errors and an enabled button, yet is rejected for missing fields |
| SignUp.UntrimmedNamePasses | app/screens/SignUpScreen.tsx:61-86 | the name "  a" passes the length guard but is sent as the one-character name "a" |
| SignUp.SignUpScreen.constructor | app/screens/SignUpScreen.tsx:7-19 | every field starts empty, with no errors, no message and not loading; the error record matches the validators from the start |
| SignUp.SignUpScreen.ValidateEmail | app/screens/SignUpScreen.tsx:22-29 | stores the text and changes only the email field of the errors, so the error record keeps matching the validators |
| SignUp.SignUpScreen.ValidatePassword | app/screens/SignUpScreen.tsx:31-38 | stores the text and changes only the password field of the errors, so the error record keeps matching the validators |
| SignUp.SignUpScreen.ValidateName | app/screens/SignUpScreen.tsx:40-47 | stores the text and changes only the name field of the errors, so the error record keeps matching the validators |
| SignUp.SignUpScreen.SetPhone | app/screens/SignUpScreen.tsx:181 | stores the phone text; the error record keeps matching the validators |
| SignUp.SignUpScreen.SetFullname | app/screens/SignUpScreen.tsx:189 | stores the full-name text; the error record keeps matching the validators |
| SignUp.SignUpScreen.HandleSignUp | app/screens/SignUpScreen.tsx:49-126 | a failing guard sets its message and sends nothing; a passing form sends the trimmed request, and the reply sets either the success message or the server's message, falling back to a fixed text; a request is sent only while the submit button is enabled; loading always ends false |
| JsString.Trim | app/screens/SignUpScreen.tsx:86-90 | trimming removes only whitespace, and only at the two ends; the result neither starts nor ends with whitespace |
| JsString.TrimIdempotent | app/screens/SignUpScreen.tsx:86-90 | trimming a trimmed field changes nothing |
| JsString.TrimKeepsTrimmed | app/screens/SignUpScreen.tsx:86-90 | a field with no whitespace at either end is sent unchanged |
| ChangePassword.Occurs | app/screens/ChangePassword.tsx:26-29 | a class test is true exactly when some character of the text lies in the class |
| ChangePassword.CheckPassword | app/screens/ChangePassword.tsx:23-31 | each flag is true exactly when its rule holds: length at least 6, an ASCII capital, an ASCII small letter, a digit, or one of !@#$%^&*(),.?":{}\|<> |
| ChangePassword.EmptyPasswordMeetsNothing | app/screens/ChangePassword.tsx:15-21 | the initial all-false flags are the flags of the empty password |
| ChangePassword.AccentedLettersAreNotLetters | app/screens/ChangePassword.tsx:25-28 | a password with no ASCII character (for instance one made only of Vietnamese accented letters) meets none of the capital-letter, small-letter, digit and special-character rules |
| ChangePassword.Admits | app/screens/ChangePassword.tsx:54-67 | a submit gets past the guards only with a non-empty old password, all five flags set, and a new password different from the old one |
| ChangePassword.AdmittedPasswordIsStrong | app/screens/ChangePassword.tsx:54-67 | when the flags come from the new password, an admitted new password has at least 6 characters, contains each of the four character classes, and differs from the old password |
| ChangePassword.ChangePasswordScreen.constructor | app/screens/ChangePassword.tsx:7-21 | everything starts empty or false, and the flags are those of the empty password |
| ChangePassword.ChangePasswordScreen.SetOldPassword | app/screens/ChangePassword.tsx:111 | stores the old password; the requirement flags still describe the new password |
| ChangePassword.ChangePasswordScreen.SetNewPassword | app/screens/ChangePassword.tsx:123-127 | stores the new password, shows the requirements and recomputes the flags from it |
| ChangePassword.ChangePasswordScreen.Focus | app/screens/ChangePassword.tsx:128 | focusing the field shows the requirements; the flags still describe the new password |
| ChangePassword.ChangePasswordScreen.HandleChangePassword | app/screens/ChangePassword.tsx:49-90 | the server is called exactly when the guards pass, and then the new password has at least six characters, an upper-case letter, a lower-case letter, a digit and a special character and differs from the old one; success shows exactly when the call is made and answers true, otherwise the error shows; loading always ends false |
| ChangePassword.SubmitBeforeTyping | app/screens/ChangePassword.tsx:59-62 | on a fresh screen with only the old password entered, whatever it is, a submit makes no server call |
| ProfileImage.ImageSource | app/components/ProfileImage.tsx:15-25 | there is no address exactly for null or "", the input itself when it starts with "http", and otherwise the base address + "/images/avatar/" + the input |
| ProfileImage.SourceEndsWithInput | app/components/ProfileImage.tsx:19-24 | every address produced ends with the input |
| ProfileImage.HttpPrefixedFileNameIsKept | app/components/ProfileImage.tsx:19-21 | the file name "httpx.png" is taken as a full address and returned unchanged |
| ProfileImage.ShowsPlaceholder | app/components/ProfileImage.tsx:27-37 | the placeholder shows exactly when the source is null or "" or the error flag is set |
| ProfileImage.RenderedImageHasSource | app/components/ProfileImage.tsx:27-47 | whenever the image is rendered instead of the placeholder, getImageSource gives it an address |
| ProfileImage.ErrorIsSticky | app/components/ProfileImage.tsx:50-56 | once error is set, no sequence of load events clears it, so the placeholder stays |
| ProfileImage.ErrorAfterRun | app/components/ProfileImage.tsx:50-56 | after a sequence of events, error is set exactly when it was set before or the sequence contains an error event |
| ProfileImage.LoadingFollowsLastEvent | app/components/ProfileImage.tsx:50-56 | after a non-empty sequence of events, loading is on exactly when the last event was a load start |
| ProfileImage.Avatar.constructor | app/components/ProfileImage.tsx:12-13 | the component starts with no error and loading on |
| ProfileImage.Avatar.OnLoadStart | app/components/ProfileImage.tsx:50 | a load start turns loading on and leaves error unchanged |
| ProfileImage.Avatar.OnLoadEnd | app/components/ProfileImage.tsx:51 | a load end turns loading off and leaves error unchanged |
| ProfileImage.Avatar.OnError | app/components/ProfileImage.tsx:52-56 | an error sets error, turns loading off and brings up the placeholder |

## Left out

- Storage (`AsyncStorage`) and JSON encoding. The storage entry is the `slot` field of `Screen`. Read failures, parse failures and write failures are not modelled, so the `catch` branches of `loadCart` and `addToCart` are not modelled either.
- `parseFloat` and floating-point prices. Prices and totals are whole VND amounts (`int`).
- Overlapping asynchronous adds. Each add's read, modify and write happens as one step. Lost updates between two concurrent adds are not modelled.
- Network calls: related products, register and change password. The replies of register and change password are parameters of the handler methods. The user id sent with a change-password request is not modelled.
- Rendering, styles, navigation, alerts, timers and logging. The related-products list and its display limit are not modelled either.
- The value of the backend base address. It is imported from configuration, so it is a parameter of `ImageSource`.
- The sign-in screen. Its only logic is a non-empty check on two fields; the rest is storage, network and navigation.
- String lengths. JavaScript's `length` counts UTF-16 code units, but the model counts characters. The two agree outside the astral planes.
- Non-string stored values. Stored line fields are assumed to have the types the cart line declares.
