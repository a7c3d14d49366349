# Brandscape showcase: a Dafny model of its UI logic

This project models the logic of a brand-identity landing page built from React components. It covers four components:

- **The showcase section** (`ProjectShowcase.tsx`). It has six hard-coded projects and seven category buttons ("All" plus six categories). The filter shows every project for "All", and otherwise only the projects of the selected category, in catalog order. The section also tracks four things: the selected category, the grid/list layout, the project chosen for the detail dialog, and whether that dialog is open.
- **The project card** (`ProjectCard.tsx`). It shows a placeholder letter, every colour swatch, and at most three tags followed by a "+N" counter. It has local liked and hovered flags, and a view button that calls the parent's `onView` with the card's own project.
- **The detail dialog** (`ProjectDetailModal.tsx`). It renders nothing for a null project. It has four tabs, and exactly one tab panel is drawn at a time. Colours are labelled Primary, Secondary, Accent and Supporting by position. Download buttons only raise a notification. The dialog also has a like flag.
- **The auth dialog** (`AuthModal.tsx`). It has a login/signup mode and a four-field form. A password passes the strength check only if all five parts hold. The submit button has a disabled rule. The submit handler raises a destructive "Passwords don't match" notification for a mismatched signup, and otherwise raises a success notification and closes.

Files:

- `options.dfy` and `toasts.dfy` hold shared values. `Option` stands for a nullable project or an absent prop. A `Toast` is a title, a description and an optional "destructive" variant.
- `catalog.dfy` holds the project record, the catalog, the category list and the filter, with the filter's properties proved as lemmas.
- `showcase.dfy` holds the `Gallery` class. It also holds two client methods that wire a card's view action and the dialog's close action through the gallery into the dialog's props.
- `card.dfy`, `detail.dfy` and `auth.dfy` each hold the pure rules of their component, plus a class for the component's mutable state.

Where a handler changes React state, the model uses a class whose methods update fields. Each method states the field it sets and that every other field keeps its value. Callbacks into the parent (`onView`, `onClose`) are observable output: `onView` calls are appended to a sequence, and `onClose` calls are counted. A `toast(...)` call appends a record to the component's `toasts` sequence.

The model follows these details of the code:

- For the password "abc", the lower-case check passes and the other four fail.
- Closing the detail dialog keeps the selected project.
- Passing a new project to the detail dialog does not reset its tab or its like flag.
- Switching the auth mode clears no field.
- The download notification reads `<kind> files are being prepared for download.`, with a final full stop.

## Model

| member | source | states |
|---|---|---|
| `Catalog.MockCatalogWellFormed` | src/components/ProjectShowcase.tsx:17-76 | The six project ids are pairwise distinct. Every project's category is one of the category buttons other than "All". "All" is the first button and appears only once. |
| `Catalog.WithCategory` | src/components/ProjectShowcase.tsx:86 | The result is no longer than the input. A project is in the result iff it is in the input and has exactly the given category. |
| `Catalog.FilteredProjects` | src/components/ProjectShowcase.tsx:84-86 | With "All" the catalog comes back unchanged and in the same order. Otherwise the result holds exactly the catalog projects of that category. |
| `Catalog.MatchPositionsAreMatches` | src/components/ProjectShowcase.tsx:86 | A catalog position is among the matching positions iff the project there has the category. |
| `Catalog.MatchPositionsSpellFilter` | src/components/ProjectShowcase.tsx:86 | The matching positions are strictly increasing. Reading the catalog at them gives the filtered list, element by element. |
| `Catalog.FilterIsOrderedSelection` | src/components/ProjectShowcase.tsx:84-86 | For every selection, the filtered list is an order-preserving subsequence of the catalog. For a real category, it is exactly the subsequence at the positions whose project has that category. |
| `Catalog.WithCategoryKeepsUniform` | src/components/ProjectShowcase.tsx:86 | Filtering a list whose projects all have the category returns that list unchanged. |
| `Catalog.FilterIdempotent` | src/components/ProjectShowcase.tsx:84-86 | Filtering the filtered list again by the same selection gives the same sequence. |
| `Catalog.UnmatchedCategoryIsEmpty` | src/components/ProjectShowcase.tsx:86 | A non-"All" category that no project has gives the empty sequence, not an error. |
| `Catalog.EachProjectUnderOneCategory` | src/components/ProjectShowcase.tsx:17-86 | In a well-formed catalog, every project is listed under "All". Among the real category buttons, it is listed under exactly its own. |
| `Showcase.Gallery.constructor` | src/components/ProjectShowcase.tsx:79-82 | The gallery starts on "All", in grid mode, with no selected project and the dialog closed, so the whole catalog is listed. |
| `Showcase.Gallery.Visible` | src/components/ProjectShowcase.tsx:84-86 | The listed cards are the whole catalog under "All". Otherwise they are exactly the catalog projects of the selected category. |
| `Showcase.Gallery.SelectCategory` | src/components/ProjectShowcase.tsx:129 | A category button sets only the category. The layout, the selected project and the open flag keep their values. |
| `Showcase.Gallery.SetViewMode` | src/components/ProjectShowcase.tsx:146-154 | The grid and list buttons set only the layout. The category, the listed cards, the selected project and the open flag are unchanged. |
| `Showcase.Gallery.ViewProject` | src/components/ProjectShowcase.tsx:88-91 | The handler selects the given project and opens the dialog. The category and the layout are unchanged. The dialog is never open without a project. |
| `Showcase.Gallery.CloseModal` | src/components/ProjectShowcase.tsx:198 | The close handler only clears the open flag. The selected project, the category and the layout keep their values. |
| `Showcase.ViewThroughCard` | src/components/ProjectShowcase.tsx:171-199 | A card's view click records one `onView` call with the card's own project. The gallery selects that project and opens the dialog. The dialog then shows that project's title and all its tags, with its tab and like flag unchanged. The card's liked and hovered flags, and the dialog's notifications and close count, are unchanged. The dialog's props match the gallery's state before and after. |
| `Showcase.CloseThroughDialog` | src/components/ProjectShowcase.tsx:195-199 | The dialog's close request counts one `onClose` call. The gallery closes, the re-rendered dialog shows nothing, and the selected project, category, layout, tab, like flag and notifications are kept. The dialog's props match the gallery's state before and after. |
| `Card.TagStripOf` | src/components/ProjectCard.tsx:125-135 | The shown tags are a prefix of the tags, with length min(3, number of tags). The "+N" counter appears iff there are more than 3 tags. When it appears, shown plus N equals the number of tags, and the shown tags followed by the rest give back all the tags. |
| `Card.Placeholder` | src/components/ProjectCard.tsx:41 | The placeholder is a prefix of the title. It is one character long for a non-empty title and empty for an empty title, as with `charAt(0)` on a title whose first character is a single UTF-16 unit. |
| `Card.FaceOf` | src/components/ProjectCard.tsx:40-135 | A card shows every colour, in order. It shows at most three tags, as a prefix of the tags, and at most one placeholder character from the front of the title. It shows the featured badge iff the project is featured. Its tag row is exactly the strip `TagStripOf` defines, with a "+N" counter iff there are more than three tags, and its placeholder is exactly `Placeholder` of the title. Title, category and description are the project's own. |
| `Card.FirstCatalogCardShowsPlusTwo` | src/components/ProjectCard.tsx:125-135 | The first catalog project has five tags. Its card shows "Luxury", "Jewelry", "Retail" and "+2", with the placeholder "N". |
| `Card.ProjectCard.constructor` | src/components/ProjectCard.tsx:23-25 | A card starts neither liked nor hovered, with no `onView` calls. |
| `Card.ProjectCard.ToggleLike` | src/components/ProjectCard.tsx:81 | The heart button flips the liked flag. The hovered flag and the `onView` calls are unchanged. |
| `Card.ProjectCard.MouseEnter` | src/components/ProjectCard.tsx:33 | Mouse enter sets the hovered flag. The liked flag is unchanged. |
| `Card.ProjectCard.MouseLeave` | src/components/ProjectCard.tsx:34 | Mouse leave clears the hovered flag. The liked flag is unchanged. |
| `Card.ProjectCard.ClickView` | src/components/ProjectCard.tsx:54 | With an `onView` callback, the view button records one call with exactly the card's own project. Without one, it records nothing. A card never reports another project. |
| `Card.LikeTwiceRestores` | src/components/ProjectCard.tsx:81 | Two clicks on the heart restore the original liked flag and change nothing else. |
| `Detail.TabIdsAreTheButtons` | src/components/ProjectDetailModal.tsx:57-62 | The four tab ids are the ids of the four tab buttons, in order. A string is a tab id iff some tab has it. |
| `Detail.Panels` | src/components/ProjectDetailModal.tsx:209-312 | A panel is drawn iff its tab id equals `activeTab`. For a tab id exactly one panel is drawn, and for any other string none is. |
| `Detail.RoleLabel` | src/components/ProjectDetailModal.tsx:251 | Position 0 is labelled "Primary", position 1 "Secondary" and position 2 "Accent". The label is "Supporting" exactly from position 3 on. |
| `Detail.Palette` | src/components/ProjectDetailModal.tsx:242-255 | The colours panel shows every colour, in order, each with the role label of its position. |
| `Detail.PaletteRolesDistinct` | src/components/ProjectDetailModal.tsx:251 | Only "Supporting" repeats. A swatch is "Primary" iff it is first, "Secondary" iff second and "Accent" iff third. |
| `Detail.DownloadToast` | src/components/ProjectDetailModal.tsx:34-39 | The notification is titled "Download Started" and is not destructive. Its description is the asset kind followed by " files are being prepared for download.". |
| `Detail.DownloadToastNamesKind` | src/components/ProjectDetailModal.tsx:37 | Different asset kinds give different notifications, so the kind can be read back from the notification. |
| `Detail.Render` | src/components/ProjectDetailModal.tsx:32-312 | A null project renders nothing, and the dialog renders iff there is a project and it is open. When rendered, it shows the project's title and all its tags, untruncated. The like button reads "Liked" exactly when liked. For a valid tab exactly one panel is drawn, the one with that id. On the colours tab the palette lists every colour in order with its role label; on any other tab no swatch is drawn. |
| `Detail.CardTagsPrefixOfDialogTags` | src/components/ProjectDetailModal.tsx:172 | The card's tags are a prefix of the dialog's tags. The card shows strictly fewer tags exactly when it has a "+N" counter. |
| `Detail.DetailModal.Screen` | src/components/ProjectDetailModal.tsx:32-65 | The dialog shows something iff the guard passes and it is open. While `activeTab` is a tab id, exactly one panel is drawn. |
| `Detail.DetailModal.constructor` | src/components/ProjectDetailModal.tsx:27-29 | The dialog starts on the "overview" tab, not liked, with no notifications and no close requests. |
| `Detail.DetailModal.ReceiveProps` | src/components/ProjectDetailModal.tsx:27-29 | New props replace the project and the open flag. The tab, the like flag and the notifications are not reset. |
| `Detail.DetailModal.SelectTab` | src/components/ProjectDetailModal.tsx:193 | A tab button sets `activeTab` to that tab's id, so exactly that tab's panel is drawn. Nothing else changes. |
| `Detail.DetailModal.ToggleLike` | src/components/ProjectDetailModal.tsx:99-105 | The like button flips the like flag, and the button then reads "Liked" exactly when liked. Nothing else changes. |
| `Detail.DetailModal.Download` | src/components/ProjectDetailModal.tsx:118-301 | Only the three quick-action kinds, and the five asset packages while the assets tab is active, can be downloaded. A download button appends exactly one download notification and changes no other state. |
| `Detail.DetailModal.RequestClose` | src/components/ProjectDetailModal.tsx:65 | The dialog's close control calls `onClose` once and changes nothing else. |
| `Auth.Toggle` | src/components/AuthModal.tsx:273 | The footer link always changes the mode. |
| `Auth.ToggleTwiceIsIdentity` | src/components/AuthModal.tsx:273 | Applying the footer link twice restores the mode. |
| `Auth.FormData.With` | src/components/AuthModal.tsx:60-62 | The updated field holds the new value, and the other three fields keep theirs. |
| `Auth.Contains` | src/components/AuthModal.tsx:66-69 | A character-class test passes iff some character of the password is in that class. |
| `Auth.ValidatePassword` | src/components/AuthModal.tsx:64-72 | The five checks hold iff, respectively: the length is at least 8, and some character is in A–Z, in a–z, in 0–9, and in `!@#$%^&*(),.?":{}|<>`. |
| `Auth.IsPasswordValid` | src/components/AuthModal.tsx:74-75 | A password is valid iff all five checks hold, so a valid password has at least 8 characters. |
| `Auth.EmptyPasswordInvalid` | src/components/AuthModal.tsx:75 | The empty password fails all five checks and is invalid. |
| `Auth.WeakSamplePassword` | src/components/AuthModal.tsx:64-72 | "abc" passes only the lower-case check. |
| `Auth.StrongSamplePasswords` | src/components/AuthModal.tsx:64-75 | "Abcdefg1!" passes all five checks, and "Abcd1234!" is valid. |
| `Auth.SubmitDisabled` | src/components/AuthModal.tsx:255 | Submit is disabled while loading. In login mode it is disabled iff loading. In signup mode, when not loading, it is disabled iff the password is invalid. |
| `Auth.EnabledSubmitIsReady` | src/components/AuthModal.tsx:255 | An enabled submit button means nothing is loading, and in signup mode that the password passes all five checks. |
| `Auth.WeakSignupBlocked` | src/components/AuthModal.tsx:255 | A signup with the password "abc" or an empty password cannot be submitted. |
| `Auth.LoginIgnoresStrength` | src/components/AuthModal.tsx:255 | In login mode the password never affects whether submit is disabled. |
| `Auth.Decide` | src/components/AuthModal.tsx:35-57 | The dialog closes unless this is a signup whose password differs from its confirmation. That case raises exactly the destructive "Passwords don't match" notification and is the only destructive one. A login always raises "Welcome back!" and closes. A matching signup raises "Account created!". |
| `Auth.LoginIgnoresForm` | src/components/AuthModal.tsx:49-57 | A login submission ends the same way whatever the form holds. In particular it never compares the password with its confirmation. |
| `Auth.SubmitScenarios` | src/components/AuthModal.tsx:35-57 | A signup with a mismatched confirmation fails without closing. A signup with a matching one succeeds and closes. A login succeeds and closes. |
| `Auth.AuthModal.SubmitDisabledNow` | src/components/AuthModal.tsx:255 | The rendered submit button is disabled while loading. Otherwise it is disabled in login mode never, and in signup mode exactly when the password fails a check. |
| `Auth.AuthModal.constructor` | src/components/AuthModal.tsx:16-25 | The dialog starts in `initialMode`, which defaults to login. It starts not loading, with all four fields empty, no notifications and no `onClose` calls. |
| `Auth.AuthModal.UpdateField` | src/components/AuthModal.tsx:60-62 | An input change sets only its own field. The other three fields, the mode, the loading flag and the outputs are unchanged. |
| `Auth.AuthModal.ToggleMode` | src/components/AuthModal.tsx:273 | The footer link swaps login and signup, keeps every form field and changes nothing else. |
| `Auth.AuthModal.Dismiss` | src/components/AuthModal.tsx:85-98 | The backdrop and the close button call `onClose` once and change nothing else. |
| `Auth.AuthModal.BeginSubmit` | src/components/AuthModal.tsx:28-33 | Submitting is only possible through the enabled button, so it starts with no submission in flight and, for a signup, with a password that passes all five checks. It sets the loading flag, which disables the button again. It captures the mode and form of that render and changes nothing else. |
| `Auth.AuthModal.CompleteSubmit` | src/components/AuthModal.tsx:35-57 | After the wait the loading flag is always cleared. Exactly the decided notification is appended, and `onClose` is called once iff the submission closes. The mode and the form fields are unchanged. |
| `Auth.SubmitUninterrupted` | src/components/AuthModal.tsx:28-58 | Started from the enabled button, an uninterrupted submit ends not loading, with the decided notification and close. A mismatched signup ends with a destructive notification and no `onClose` call. The form is unchanged. |

## Left out

- `handleShare` (`ProjectDetailModal.tsx` lines 41-55) is not modelled. It calls the browser's native share or clipboard functions, and their outcome is never observed.
- The 1500 ms wait in `handleSubmit` is not modelled as time. The handler is split into `BeginSubmit` and `CompleteSubmit`, and the completion decides from the mode and form captured at the start. No timer or asynchrony is modelled. A completion may run after other events, including a dismissal, and the model does not guard against that, just as the source does not.
- The internals of the notification hook are not modelled. A notification is a record appended to an output sequence.
- Regular-expression semantics are not modelled. The four pattern tests are written as ASCII character ranges plus the listed special characters. Passwords are character sequences, and their length stands for JavaScript's UTF-16 length. The two differ for characters outside the Basic Multilingual Plane, which JavaScript counts twice: "Abc1!x" followed by one emoji has length 8 in the page and passes every check, but length 7 in the model, so the model keeps the signup button disabled where the page enables it.
- Card.Placeholder: titles are character sequences, so a title whose first character lies outside the Basic Multilingual Plane yields that whole character, where `charAt(0)` would yield a lone UTF-16 surrogate. Every catalog title starts with an ASCII letter.
- The auth dialog's `isOpen` prop and its render guard (`AuthModal.tsx` line 79) are not modelled. The model lets `UpdateField`, `ToggleMode`, `Dismiss` and `BeginSubmit` run whatever the prop is, although in the page they need the rendered dialog; only `CompleteSubmit` can really run while the dialog is closed.
- The `showPassword` flag is not modelled. It only switches the input type.
- Rendering details are not modelled: animation parameters (including the card's index-based delay), style classes, layout, and the highlighting of the selected button. So are the mode-dependent headings and labels, the signup-only name and confirmation inputs, and the signup-only strength checklist.
- Native input validation is not modelled: `required` and `type="email"` act in the browser before the submit handler runs. The handler itself checks nothing; the only guard the model keeps is the `disabled` attribute, as the precondition of `BeginSubmit`.
- Images are not modelled, and neither are decorative numbers: the view, like and download counts, and the asset sizes and formats. A project's `image` is kept only as the asset's file name.
- Buttons with no handler are not modelled: the social login buttons, the card's download button and "Load More Projects".
- The header, hero, footer and page composition are not modelled. They hold no logic beyond the hero's own auth-dialog open flag and a scroll call. The header's Login and Sign Up buttons have no click handler.
