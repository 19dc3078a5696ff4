# Recipe authoring form: state, required-field check and list edits

This project models the client-side recipe authoring form of a recipe-sharing
web application (`app/protected/recipe-form/page.tsx`). The form keeps its
state in component fields:

- title, servings, category, preparation time and steps;
- a dynamic list of ingredient rows, each a name and a quantity;
- whether an image is selected;
- the list of missing-field labels on display;
- the signed-in user's id.

Handlers change this state: adding, removing and editing ingredient rows, the
input handlers, the session check, and submit. Submit runs a required-field
check. It stops when a field is missing or no user is signed in. Otherwise it
hands the recipe on and clears the form.

Files:

- `wrappers.dfy`: `Option`. `None` is JavaScript's `null`, or `NaN` for a
  `parseInt` result.
- `recipe_form_state.dfy` (module `RecipeFormState`): the pure part.
  - The form values, the six required fields and their Estonian labels.
  - JavaScript falsiness: an empty string is missing; a number is missing when
    it is `NaN` or `0`; a negative number is present.
  - The specification of the check. `MissingFields` keeps, in the fixed order,
    the fields that are missing. `ErrorList` gives their labels.
  - The index filter behind "remove ingredient".
  - The lemmas about all of these.
- `recipe_form_page.dfy` (module `RecipeFormPage`): the component.
  - Class `RecipeForm`, with the component's state as fields and one method
    per handler.
  - The parts of the check: `SomeIncomplete` is the loop of
    `ingredients.some(...)`; `CollectMissingFields` does the six pushes.
  - Two client methods that walk through a blocked submit and a successful
    one.

The code runs the required-field check before any image cropping or upload.
Submit is blocked by the check or by a missing user, never by the image.

## Model

| member | source | states |
|---|---|---|
| `RecipeFormState.MissingFieldsMembers` | app/protected/recipe-form/page.tsx:41-50 | a required field is in the missing list iff it is missing (empty string; `NaN` or `0` number; some incomplete ingredient row) |
| `RecipeFormState.MissingFieldsInOrder` | app/protected/recipe-form/page.tsx:40-50 | the missing list follows the fixed field order, so no field appears twice and there are at most six |
| `RecipeFormState.MissingFieldsCharacterized` | app/protected/recipe-form/page.tsx:40-50 | any list in field order whose members are exactly the missing fields is the missing list |
| `RecipeFormState.InFieldOrderUnique` | app/protected/recipe-form/page.tsx:40-50 | two lists in field order with the same members are equal (the order fixes the list) |
| `RecipeFormState.ErrorListMembers` | app/protected/recipe-form/page.tsx:40-50 | the shown list has one label per missing field, position by position; each of the six labels is shown iff its field is missing |
| `RecipeFormState.ErrorListInOrder` | app/protected/recipe-form/page.tsx:40-50 | the shown labels stand in the order Pealkiri, Koostisosa ja kogus, Portsjonite arv, Kategooria, Valmistusaeg, Valmistusjuhend; none is repeated; at most six |
| `RecipeFormState.ErrorListEmptyIff` | app/protected/recipe-form/page.tsx:52-58 | the shown list is empty iff all six required fields are present |
| `RecipeFormState.EmptyIngredientListNotFlagged` | app/protected/recipe-form/page.tsx:42-46 | with no ingredient rows the ingredient label is never shown |
| `RecipeFormState.AddedRowIsFlagged` | app/protected/recipe-form/page.tsx:84-86 | after a row is added the ingredient label is shown, whatever the other rows hold |
| `RecipeFormState.InitialMissesEverything` | app/protected/recipe-form/page.tsx:24-33 | the initial (and the reset) values miss all six fields; the shown list is all six labels in order |
| `RecipeFormState.MissingUpToMembers` | app/protected/recipe-form/page.tsx:41-50 | after the first `n` decisions, a field has been collected iff it is among the first `n` and missing |
| `RecipeFormState.MissingUpToOrdered` | app/protected/recipe-form/page.tsx:41-50 | the fields collected after the first `n` decisions are in field order and at most `n` |
| `RecipeFormState.WithoutPositionRemovesOne` | app/protected/recipe-form/page.tsx:89 | filtering by index removes exactly the entry at a valid index, keeping the rest in order; any other index leaves the list unchanged |
| `RecipeFormState.AddThenRemoveLast` | app/protected/recipe-form/page.tsx:84-90 | removing the row just added gives back the earlier list |
| `RecipeFormPage.SomeIncomplete` | app/protected/recipe-form/page.tsx:42-44 | the scan answers true iff some row has an empty name or an empty quantity |
| `RecipeFormPage.CollectMissingFields` | app/protected/recipe-form/page.tsx:40-50 | the six pushes build exactly the shown list of the specification |
| `RecipeFormPage.RecipeForm.constructor` | app/protected/recipe-form/page.tsx:24-36 | initial state: empty strings, numbers 0, one empty ingredient row, no image, no errors, no user |
| `RecipeFormPage.RecipeForm.ValidateForm` | app/protected/recipe-form/page.tsx:39-59 | `errors` becomes the shown list of the current values and nothing else changes; the result is true iff that list is empty, iff every field is present |
| `RecipeFormPage.RecipeForm.AddIngredientField` | app/protected/recipe-form/page.tsx:84-86 | exactly one empty row is appended; earlier rows unchanged; nothing else changes |
| `RecipeFormPage.RecipeForm.RemoveIngredientField` | app/protected/recipe-form/page.tsx:88-90 | a valid index removes exactly that row, the rest keep their order; any other index leaves the list unchanged |
| `RecipeFormPage.RecipeForm.HandleIngredientChange` | app/protected/recipe-form/page.tsx:92-100 | only the chosen part of row `index` takes the new value; length, other rows and the other part unchanged |
| `RecipeFormPage.RecipeForm.HandleImageChange` | app/protected/recipe-form/page.tsx:102-107 | a chosen file makes an image present; no file changes nothing |
| `RecipeFormPage.RecipeForm.CheckUserSession` | app/protected/recipe-form/page.tsx:71-78 | a truthy session user id is stored; an error, a missing or an empty id leaves `userId` as it was |
| `RecipeFormPage.RecipeForm.HandleSubmit` | app/protected/recipe-form/page.tsx:120-154 | `errors` is set by the check; blocked (no request, no field changed) iff a field is missing or no user; otherwise the request carries the old values and every field is back at its initial value |
| `RecipeFormPage.RecipeForm.SetTitle` | app/protected/recipe-form/page.tsx:183 | the title takes the typed value |
| `RecipeFormPage.RecipeForm.SetServings` | app/protected/recipe-form/page.tsx:241 | servings takes the `parseInt` result, `NaN` included |
| `RecipeFormPage.RecipeForm.SetSelectedCategory` | app/protected/recipe-form/page.tsx:263 | the category takes the selected value |
| `RecipeFormPage.RecipeForm.SetTotalTimeMinutes` | app/protected/recipe-form/page.tsx:287 | the time takes the `parseInt` result, `NaN` included |
| `RecipeFormPage.RecipeForm.SetStepsDescription` | app/protected/recipe-form/page.tsx:301 | the steps take the typed value |
| `RecipeFormPage.RecipeForm.DismissErrors` | app/protected/recipe-form/page.tsx:159 | closing the alert empties the shown list |

## Left out

- Rendering and browser hints: the JSX markup is not modelled. The
  `maxLength` and `min` attributes are enforced by the browser, not by this
  code, so the model accepts any string and any number (negatives too).
- Image cropping: `getCroppedImageURL`, the cropper component and
  `URL.createObjectURL` are calls into a UI library. The image is modelled
  only as present or absent.
- Backend calls: `uploadImage`, `addRecipe`, `fetchCategories`, the session
  lookup and `router.push` are network calls.
  - `HandleSubmit` returns the arguments it would pass to `addRecipe`, without
    the image path.
  - `CheckUserSession` takes the looked-up user id as a parameter.
  - The category list loaded for the select is not part of the state.
- HandleSubmit: assumes the awaited upload and insert calls return. If one of
  them threw, the source would skip the reset; the model does not cover that
  path.
- HandleIngredientChange: the source copies the array but mutates the shared
  row object in place (page.tsx:97-98). The model builds a new row value, so
  it does not capture that aliasing. The aliasing is visible to a submit
  still waiting on its external calls, as the next line says.
- HandleSubmit: the handler is modelled as one uninterrupted step. In the
  source it waits at the upload (page.tsx:129) and at the insert
  (page.tsx:132), and other handlers can run during those waits. The model
  does not capture three effects of this:
  - An ingredient edit made during the wait writes into a row object that
    the submitted array still holds. `addRecipe` can then receive rows that
    were never checked, for example a row whose name was cleared after the
    check.
  - The reset after the insert (page.tsx:145-151) discards every edit made
    during the waits.
  - A second press during a wait passes the guard again, so `addRecipe` is
    called twice.
- `parseInt` itself is not modelled. Its result enters the model as
  `Option<int>`, with `None` standing for `NaN`.
- Logging (`console.log`, `console.error`) has no effect on the state.
- `app/actions.ts` is not part of this model. Its actions pass straight
  through to the auth and database provider, and their outcomes go through
  redirects.
