# Dropdown menu, form validators and small widgets, modelled in Dafny

This project models the parts of a small React UI library, and of its demo
application, that hold logic:

- **The dropdown menu** (`src/components/ui/menu.tsx`):
  - **State.** The open flag has a controlled mode, and the trigger records the anchor.
  - **Layout pass.** It places the panel against its anchor. It then flips or clamps each axis to the viewport, and it retries up to three times while the panel measures zero.
  - **Scroll listener.** It moves the panel with the page until the scroll distance passes a threshold, and then closes the menu.
  - **Close events.** An outside mousedown, Escape, an item click or the backdrop closes the menu and resets the state kept per opening.
- **The contact page** (`src/pages/ContactPage.tsx`): its validator over trimmed fields and the e-mail pattern `^[^\s@]+@[^\s@]+\.[^\s@]+$`, and its submit handler.
- **The landing page** (`src/App.tsx`):
  - the newsletter validator and its submit handler;
  - the initial dark-mode decision and how the setting is persisted.
- **The switch** (`src/components/ui/switch.tsx`): controlled versus uncontrolled state, the change handler, the id and the state attributes.
- **The avatar** (`src/components/ui/avatar.tsx`): whether the image or the fallback is shown, the fallback text, the accessible label, and the one-way image-error flag.

Modules and files:

| module | file | contents |
|---|---|---|
| `Wrappers` | `wrappers.dfy` | `Option` (an optional prop or value) |
| `JsStrings` | `js_strings.dfy` | the white-space set shared by `trim` and `\s`, `trim`, string `\|\|` |
| `JsObjects` | `js_objects.dfy` | `Object.keys(m).length === 0` on maps |
| `MenuGeometry` | `menu_geometry.dfy` | raw placement, per-axis flip/clamp, scroll-distance test |
| `MenuEngine` | `menu.dfy` | class `Menu`: the menu's lifecycle as event handlers |
| `ContactPage` | `contact_page.dfy` | e-mail pattern, error map, class `ContactForm` |
| `LandingPage` | `landing_page.dfy` | newsletter errors, dark mode, class `Landing` |
| `SwitchControl` | `switch.dfy` | id and attributes, class `Switch` |
| `AvatarView` | `avatar.dfy` | fallback selection, class `Avatar` |

How the model is built:

- **State.** Each component that keeps React state is a class.
  - The state variables are fields.
  - Each handler is a method. It updates what the handler updates, and then what the effects of the next render update.
  - The methods are specified against pure functions: `Placement`, `ContactErrors` and `NewsletterErrors`.
  - The properties the source promises are lemmas about those functions.
- **Layout.** The layout pass (`Menu.Layout`) keeps the source's step-by-step assignments to `top` and `left`. It is split in two parts: `RawPlacement` covers the switches and the spacing, and `ConstrainAxis` covers one axis's flip/clamp chain. Each part is proved equal to its function, so the committed position equals `Placement`.
- **Validators.** Both validators fill a fresh map rule by rule, as the source does. Each is proved equal to its error function.
- **Numbers.** Coordinates are `real`. The scroll test `sqrt(dx² + dy²) > t` is written as `t < 0 || dx² + dy² > t²`. `ScrollExceedsIff` proves that this is the same as comparing the exact distance with `t`, inequality strict.
- **Origins.** The origin types have one extra value each, `OtherVertical` and `OtherHorizontal`. These stand for a value outside the declared union. They make the switches' `default` branches reachable:
  - the vertical transform switch has no `default`, so it applies no shift;
  - the horizontal one falls back to `right`;
  - the spacing is applied only for an anchor vertical of exactly `bottom` or `top`.
- **Two behaviours of the code that a reader might not expect:**
  - The anchor element is never cleared when the menu closes.
  - An accepted flip is checked against one viewport edge only, so the panel can still overflow the other edge (`AcceptedFlipMayOverflow`).

## Model

| member | source | states |
|---|---|---|
| JsStrings.Trim | src/pages/ContactPage.tsx:27-40 | `trim()` leaves "" exactly when every character is white space |
| JsStrings.Or | src/components/ui/avatar.tsx:31-32 | `a || b` on strings: the result is one of the two, `a` whenever it is non-empty, and empty only when both are |
| ContactPage.EmailRegex | src/pages/ContactPage.tsx:32 | a value the pattern accepts is at least five characters long, contains an '@', and starts with neither white space nor '@' |
| ContactPage.RegexHasShape | src/pages/ContactPage.tsx:32 | a value the pattern accepts has no white space, exactly one '@' with something before it, and a '.' strictly inside the part after it |
| ContactPage.ShapeHasRegex | src/pages/ContactPage.tsx:32 | every value of that shape splits into the pattern's three runs |
| ContactPage.EmailRegexIff | src/pages/ContactPage.tsx:32 | the pattern, tested on the untrimmed value, accepts exactly the values of that shape, so leading or trailing spaces fail |
| ContactPage.FailedRules | src/pages/ContactPage.tsx:24-40 | the broken rules are drawn from the keys name, email, topic, message only, never company |
| ContactPage.ContactErrors | src/pages/ContactPage.tsx:24-41 | the error map built rule by rule uses only the keys name, email, topic and message |
| ContactPage.EmailRuleEffect | src/pages/ContactPage.tsx:30-34 | the e-mail rule adds "email" exactly when the value lacks the accepted shape; a blank value gets "Email is required", otherwise "Please enter a valid email", never both; other keys are untouched |
| ContactPage.ContactErrorsKeys | src/pages/ContactPage.tsx:24-40 | the error map has one key per broken rule (blank name, bad e-mail, empty topic, blank message) and no other key |
| ContactPage.ContactErrorsMessages | src/pages/ContactPage.tsx:27-40 | each key carries its rule's fixed message |
| ContactPage.ContactErrorsEmptyIff | src/pages/ContactPage.tsx:24-43 | the error map is empty exactly when name and message are not blank, the e-mail has the accepted shape and a topic is chosen (without trimming) |
| ContactPage.ContactForm.constructor | src/pages/ContactPage.tsx:14-22 | all fields start empty, not submitted, no errors |
| ContactPage.ContactForm.SetField | src/pages/ContactPage.tsx:210-290 | a change handler replaces its own field and keeps the others |
| ContactPage.ContactForm.ValidateForm | src/pages/ContactPage.tsx:24-44 | the stored errors are the error map of the current values, and the result is true exactly when that map is empty; the values and the submitted flag are unchanged |
| ContactPage.ContactForm.HandleSubmit | src/pages/ContactPage.tsx:46-52 | the submitted flag becomes true and the errors are cleared only when validation passes; otherwise the flag is unchanged and the errors hold the new map |
| MenuGeometry.RawPosition | src/components/ui/menu.tsx:189-249 | with the default origins the panel starts 4 below the anchor with its right edge on the anchor's; bottom-to-top origins put the panel's bottom 4 above the anchor; left-to-left origins align the left edges |
| MenuGeometry.RawAligns | src/components/ui/menu.tsx:189-249 | for declared origins, the panel's transform-origin point lands on the anchor's anchor-origin point, moved vertically by +4 (bottom), -4 (top) or 0 (centre) |
| MenuGeometry.RawUndeclared | src/components/ui/menu.tsx:190-249 | an undeclared anchor value counts as bottom / right with no spacing; an undeclared transform value counts as right horizontally and shifts nothing vertically |
| MenuGeometry.DefaultExample | src/components/ui/menu.tsx:189-249 | with the default origins, anchor (100, 200, 50 x 20) and a 150 x 80 panel start at top 124, left 100 |
| MenuGeometry.Clamp | src/components/ui/menu.tsx:285-291 | the clamp is at least 8, at most `V - size - 8` when `V - size >= 16`, returns a coordinate already in range unchanged, and otherwise returns one of the two bounds |
| MenuGeometry.FitAxis | src/components/ui/menu.tsx:256-291 | on an axis with no overflow the raw coordinate is kept; otherwise the result is a flip target or the clamp |
| MenuGeometry.FitAxisBounds | src/components/ui/menu.tsx:256-291 | when the panel fits, the result keeps the start padding unless it is the flip towards the end, and the end padding unless it is the flip towards the start |
| MenuGeometry.AcceptedFlipMayOverflow | src/components/ui/menu.tsx:261-266 | an accepted flip is checked against one edge only: a 90-pixel panel in a 100-pixel viewport flips to 10 and overruns the bottom padding |
| MenuGeometry.Placement | src/components/ui/menu.tsx:256-328 | each committed coordinate is the raw one, one of that axis's two flip targets, or the raw one clamped |
| MenuGeometry.PlacementNoOverflow | src/components/ui/menu.tsx:256-328 | when nothing overflows, the committed position is the raw one |
| MenuGeometry.PlacementFlipsUp | src/components/ui/menu.tsx:261-272 | opened below and overflowing the bottom, the panel moves to exactly `anchor.top - h - 4` when that is at least 8, and is clamped otherwise |
| MenuGeometry.PlacementFlipsDown | src/components/ui/menu.tsx:273-284 | opened above and overflowing the top, the panel moves to exactly `anchor.bottom + 4` when it then ends within `vh - 8`, and is clamped otherwise |
| MenuGeometry.PlacementFlipsLeft | src/components/ui/menu.tsx:298-309 | opened to the right and overflowing the right edge, the panel moves to exactly `anchor.left - w` (no spacing) when that is at least 8, and is clamped otherwise |
| MenuGeometry.PlacementFlipsRight | src/components/ui/menu.tsx:310-321 | opened to the left and overflowing the left edge, the panel moves to exactly `anchor.right` (no spacing) when it then ends within `vw - 8`, and is clamped otherwise |
| MenuGeometry.PlacementCentredClamps | src/components/ui/menu.tsx:285-291 | a centred or undeclared anchor vertical never flips: any vertical overflow clamps |
| MenuGeometry.PlacementTopIndependent | src/components/ui/menu.tsx:256-291 | the committed top depends only on vertical inputs |
| MenuGeometry.PlacementLeftIndependent | src/components/ui/menu.tsx:293-328 | the committed left depends only on horizontal inputs |
| MenuGeometry.PlacementBounds | src/components/ui/menu.tsx:256-328 | when the panel fits in the viewport, every padding holds except the far edge of an accepted flip |
| MenuGeometry.ScrollExceeds | src/components/ui/menu.tsx:393-397 | a negative threshold dismisses on any scroll event; with no movement only a negative threshold dismisses |
| MenuGeometry.ScrollExceedsIff | src/components/ui/menu.tsx:393-397 | the square-root-free test is exactly "distance > threshold", strictly |
| MenuGeometry.ScrollAtThresholdStaysOpen | src/components/ui/menu.tsx:393-397 | a scroll of exactly the default threshold (30, 40) keeps the menu open; (30, 41) closes it |
| MenuEngine.RawPlacement | src/components/ui/menu.tsx:186-249 | the step-by-step assignments to `top` and `left` yield the raw position |
| MenuEngine.ConstrainAxis | src/components/ui/menu.tsx:256-291 | the overflow flags and the flip/clamp chain of one axis yield `FitAxis` (the horizontal block, 293-328, is the same chain with the horizontal flip targets) |
| MenuEngine.Menu.IsOpen | src/components/ui/menu.tsx:78 | a given `open` prop decides alone; without it the internal state does |
| MenuEngine.Menu.constructor | src/components/ui/menu.tsx:67-78 | props default to bottom/right, top/right and 50; closed internal state, no anchor, nothing positioned |
| MenuEngine.Menu.ResetPerOpening | src/components/ui/menu.tsx:336-343 | no position, offset (0, 0), retry counter 0, not positioned |
| MenuEngine.Menu.RequestOpen | src/components/ui/menu.tsx:80-88 | in controlled mode the internal state is untouched, otherwise it becomes true; `onOpenChange(true)` is always called; on becoming open the scroll origin and threshold are read |
| MenuEngine.Menu.RequestClose | src/components/ui/menu.tsx:80-88 | in controlled mode the internal state is untouched, otherwise it becomes false; `onOpenChange(false)` is always called; a menu that became closed holds no per-opening state |
| MenuEngine.Menu.Trigger | src/components/ui/menu.tsx:118-122 | the clicked element becomes the anchor, the open request is made, and the trigger's own `onClick` runs after `onOpenChange(true)` |
| MenuEngine.Menu.ItemClick | src/components/ui/menu.tsx:460-463 | the item's own `onClick` runs, then `onOpenChange(false)`, then the reset |
| MenuEngine.Menu.MouseDown | src/components/ui/menu.tsx:349-359 | a mousedown closes exactly when the menu is open, has an anchor, and the target is outside both panel and anchor; otherwise nothing changes |
| MenuEngine.Menu.KeyDown | src/components/ui/menu.tsx:370-374 | a keydown closes exactly when the menu is open and the key is "Escape"; otherwise nothing changes |
| MenuEngine.Menu.BackdropClick | src/components/ui/menu.tsx:415-418 | a click on the backdrop of an open menu asks to close |
| MenuEngine.Menu.Style | src/components/ui/menu.tsx:431-441 | a style exists exactly while the menu is open; before a position is committed it is (0, 0) |
| MenuEngine.Menu.Scroll | src/components/ui/menu.tsx:388-402 | measured from the scroll position read at opening, a distance beyond the threshold read at opening asks to close; otherwise the offset becomes (-dx, -dy), so the rendered panel keeps its place on the page |
| MenuEngine.Menu.Layout | src/components/ui/menu.tsx:172-333 | a closed or anchorless menu is untouched; a zero-size panel commits nothing and asks for another pass only while fewer than 3 were asked for (the counter never exceeds 3); otherwise the committed position is `Placement` and the menu is positioned |
| MenuEngine.Menu.SetOpenProp | src/components/ui/menu.tsx:381-408 | a new `open` prop closes and resets, or (open and the prop changed) re-reads the scroll origin and threshold |
| MenuEngine.Menu.SetThresholdProp | src/components/ui/menu.tsx:384-408 | a new threshold prop is stored, and an open menu keeps the threshold it read at opening |
| MenuEngine.Menu.SetOriginProps | src/components/ui/menu.tsx:71-72 | missing origin props take their defaults |
| LandingPage.FailedConditions | src/App.tsx:54-62 | the failed conditions are drawn from email, interest and terms only |
| LandingPage.NewsletterErrors | src/App.tsx:51-63 | the error map built condition by condition uses only the keys email, interest and terms |
| LandingPage.NewsletterErrorsKeys | src/App.tsx:51-62 | each failed condition adds exactly its own key and no other key is added |
| LandingPage.NewsletterErrorsMessages | src/App.tsx:54-62 | each key carries its fixed message |
| LandingPage.NewsletterErrorsEmptyIff | src/App.tsx:51-65 | validation passes exactly when the e-mail and the interest are non-empty and the terms are accepted |
| LandingPage.BlankEmailPasses | src/App.tsx:54 | the e-mail is neither trimmed nor format-checked, so `" "` passes |
| LandingPage.StoredDarkMode | src/App.tsx:47 | the stored text is "true" exactly when dark mode is on |
| LandingPage.InitialDarkMode | src/App.tsx:35-44 | off outside a browser; in a browser a saved value decides (on exactly when it is "true"), and without one the system preference does |
| LandingPage.SavedValueDecides | src/App.tsx:35-44 | in a browser a saved value overrides the system preference, and means on exactly when it is "true" |
| LandingPage.DarkModeRoundTrip | src/App.tsx:35-47 | the value persisted is the value restored on the next load, whatever the preference |
| LandingPage.Landing.constructor | src/App.tsx:25-49 | an empty form, no errors, not subscribed; dark mode from the saved value, the preference, or off outside a browser; in a browser the flag is written back |
| LandingPage.Landing.SetEmail | src/App.tsx:267 | the e-mail takes the new value, the rest of the form is kept |
| LandingPage.Landing.SetInterest | src/App.tsx:283 | the interest takes the new value, the rest of the form is kept |
| LandingPage.Landing.SetTermsAccepted | src/App.tsx:312 | the terms flag takes the new value, the rest of the form is kept |
| LandingPage.Landing.SetDarkMode | src/App.tsx:46-49 | the flag changes and the stored text follows it |
| LandingPage.Landing.ValidateForm | src/App.tsx:51-66 | the stored errors are the error map of the current values, and the result is true exactly when that map is empty |
| LandingPage.Landing.Submit | src/App.tsx:248-253 | subscribes and clears the errors only when validation passes; otherwise the errors hold the new map |
| SwitchControl.SwitchId | src/components/ui/switch.tsx:39-40 | the id is never empty: the given id if non-empty, else "switch-" followed by the generated id |
| SwitchControl.InitialChecked | src/components/ui/switch.tsx:44-46 | the initial internal state is on exactly when `defaultChecked` is given as true |
| SwitchControl.AriaChecked | src/components/ui/switch.tsx:75 | the attribute is "true" or "false", and "true" exactly when the switch shows checked |
| SwitchControl.DataState | src/components/ui/switch.tsx:85 | the attribute is "checked" or "unchecked", and "checked" exactly when the switch shows checked |
| SwitchControl.StateAttributesAgree | src/components/ui/switch.tsx:75-85 | `aria-checked` is "true" and `data-state` is "checked" exactly when the switch shows checked |
| SwitchControl.Switch.IsControlled | src/components/ui/switch.tsx:49 | the switch is controlled exactly when a `checked` prop is given |
| SwitchControl.Switch.IsChecked | src/components/ui/switch.tsx:50 | a controlled switch shows its prop, an uncontrolled one its internal state |
| SwitchControl.Switch.constructor | src/components/ui/switch.tsx:44-50 | the internal state starts as `defaultChecked`, or false; the display is the prop when given |
| SwitchControl.Switch.HandleChange | src/components/ui/switch.tsx:52-57 | only an uncontrolled switch takes the new value, and a controlled one keeps its display; every change is forwarded |
| SwitchControl.Switch.SetCheckedProp | src/components/ui/switch.tsx:48-50 | the switch is controlled exactly while the prop is given; the internal state survives a change of mode |
| AvatarView.UpperAscii | src/components/ui/avatar.tsx:31 | lower-case ASCII letters map to their capitals, everything else is kept |
| AvatarView.Initial | src/components/ui/avatar.tsx:31 | at most one character, and none exactly for a missing or empty `alt` |
| AvatarView.ShowFallback | src/components/ui/avatar.tsx:30 | a missing or empty source, or a failed image, shows the fallback; the image is shown only for a non-empty source that has not failed |
| AvatarView.FallbackText | src/components/ui/avatar.tsx:31 | never empty: the `fallback` prop, else the capitalised first character of `alt`, else "?" |
| AvatarView.AriaLabel | src/components/ui/avatar.tsx:30-37 | present exactly while the fallback is shown, never empty: `alt` if non-empty, else "Avatar with initials " and the fallback text |
| AvatarView.ImageAlt | src/components/ui/avatar.tsx:48 | the image's alt is never empty, and is `alt` when that is non-empty, else "Avatar" |
| AvatarView.Avatar.constructor | src/components/ui/avatar.tsx:28 | the error flag starts false |
| AvatarView.Avatar.ImageFailed | src/components/ui/avatar.tsx:45-49 | an error on a shown image sets the flag, after which the fallback is shown |
| AvatarView.Avatar.SetProps | src/components/ui/avatar.tsx:28-30 | new props never clear the error flag, so a failed avatar keeps showing its fallback |

## Left out

- DOM measurement and globals. `getBoundingClientRect`, `window.innerWidth/innerHeight` and `window.scrollX/scrollY` are method parameters.
- The document and window listeners. Their registration (including the capture-phase scroll listener) and their removal are left out; each handler is a method that acts only while the menu is open.
- `requestAnimationFrame`. It is folded into `Menu.Layout`: the counter increments at once and `retry` says that a new pass is due. A frame that fires after the menu closed is not modelled.
- React scheduling:
  - batching of state updates and the exact effect timing;
  - a new `onOpenChange` function identity, which would also re-run the scroll effect and re-read the origin and threshold.
- `useMenu`'s error outside a `Menu`. All parts of a menu are methods of one `Menu` object, so there is no part without a root.
- `asChild` cloning in the trigger. The cloned child's own `onClick`, which runs after the trigger's handler, is not modelled. Also left out are `createPortal`, `forwardRef`/`useImperativeHandle`, the separator and all class strings.
- Floating point. Coordinates are exact reals, and `Math.sqrt` is replaced by the squared comparison.
- `localStorage`, `matchMedia` and `document.documentElement.style.colorScheme`. The saved value and the system preference are inputs. Local storage is one field, and the colour-scheme write is not modelled.
- `React.useId`. The generated id is a parameter.
- The DOM checkbox's own toggling. `HandleChange` takes the new `checked` value as given.
- AvatarView.UpperAscii: upper-cases only the ASCII letters. JavaScript's `toUpperCase` covers all of Unicode and can return more than one character (for example "ß" becomes "SS"), and `charAt` counts UTF-16 code units, whereas Dafny's `char` is a Unicode scalar value.
- The landing page's other state (current page, notifications switch) and the presentational components (`input`, `select`, `textarea`, `checkbox`, `card`, `alert`, `badge`, `grid`, `button` and their parts), which hold no logic beyond class-string lookup.
