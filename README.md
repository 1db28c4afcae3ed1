# laravel-better-bind, modelled in Dafny

`BetterBind` is a PHPUnit helper for Laravel's service container. A test
calls `appBind($signature, $closure, $caught)` to register a mock factory
for a signature. Each time the container resolves that signature with a
parameter array, the wrapper does three things in order:

1. it copies the array into the test's `$caught` variable;
2. if the signature names an existing class, it checks the array against
   that class's constructor with `assertParamsMatchConstructor`;
3. it returns what the closure returns.

`appInstance` is the same with a closure that always yields one fixed
instance. `appBind` returns a `BetterBinder`. Through it the test can name
constructor parameters that the required-parameter check should skip.

The validator walks the constructor parameters in declaration order.

- A parameter that is neither optional nor ignored must be `isset` in the
  array: the key is present and its value is not null. A parameter is
  ignored when `in_array` finds its name in the ignore list. `in_array`
  compares with PHP's loose `==`, so a `true` or an integer 0 in the list
  ignores every parameter.
- Every declared name is then unset from a working copy of the array,
  whatever the outcome of that check.
- Whatever is left over fails as "extra". The failure message lists the
  leftover keys, each backtick-quoted, joined by `, `.
- A class without a constructor accepts only an empty array.

A PHPUnit assertion throws, so the first failed check ends validation.

Files:

- `php_arrays.dfy` (module `PhpArrays`): PHP values. A parameter array is
  an ordered list of `(key, value)` entries. The module defines `Keys`,
  `Lookup`, `isset` (`IsSet`), `unset` (`Unset`) and `Without`, which drops
  a set of keys.
- `better_bind.dfy` (module `BetterBind`): the failure messages and the
  validator. `Validate` is the specification function. The method
  `AssertParamsMatchConstructor` is the source's loop over a working copy
  and is proved equal to it. The lemmas state what validation means in
  terms of the supplied array alone.
- `better_binder.dfy` (module `Binder`): the class `BetterBinder`, with its
  mutable ignore list.
- `bindings.dfy` (module `Bindings`): `appBind`, `appInstance` and one
  resolution (`Binding.Resolve`), whose `caught` out-parameter plays the
  part of the `&$caught_params` reference. Module `BindingScenarios`
  replays all nine cases of tests/BetterBindTest.php as client methods
  whose assertions the verifier checks:

  - `testBindNonsenseWordNoParams` is `NonsenseWordNoParams`;
  - `testBindNonsenseWordAndParams` is `NonsenseWordAndParams`;
  - `testBindHeadlessClassNoParams` is `HeadlessClassNoParams`;
  - `testBindHeadlessClassWithParams` is `HeadlessClassWithParamsFails`;
  - `testBindHeadfulClassWithAllParams` is `AllParamsResolve`;
  - `testBindHeadfulClassWithOneParam` is `OptionalParamMayBeLeftOut`;
  - `testBindHeadfulClassNoParams` is `RequiredParamReported`;
  - `testBindHeadfulClassWithTooManyParams` is `ExtraParamReported`;
  - `testInstance` is `NonClassSignatureNeverValidates`.

  It adds two scenarios of its own, `IgnoredParamNotRequired` and
  `TrueIgnoresEveryParameter`. The case at
  tests/BetterBinderTest.php:13-20 is `Binder.IgnoreArrayReturnsSameBinder`.

Two points about what the code does not do:

- The ignore list is consulted only in the required-parameter check
  (src/BetterBind.php:40). The extra-parameter check at line 51 counts
  every key left after the declared names are unset. So an ignored name
  that the constructor does not declare still fails as extra; lemma
  `IgnoredNameStillExtra` states this.
- No code in src/BetterBind.php compares parameter types or coerces
  scalar values. Only the presence of keys is checked.

## Model

| member | source | states |
|---|---|---|
| `PhpArrays.Keys` | src/BetterBind.php:45-46 | the keys of an array are the keys of its entries, one per entry, in order |
| `PhpArrays.Lookup` | src/BetterBind.php:41 | the lookup finds nothing exactly when the key is absent; otherwise the value found is stored under that key |
| `PhpArrays.LookupFindsFirstEntry` | src/BetterBind.php:41 | the lookup finds a value exactly when some entry has the key, and the value found is the one in the first such entry |
| `PhpArrays.IsSet` | src/BetterBind.php:41 | `isset` holds if and only if the first entry with the key holds a non-null value; so the key is present, and a key whose every value is null is never `isset` |
| `PhpArrays.Unset` | src/BetterBind.php:43 | after `unset` the key is absent; the array shrinks exactly when the key was present, and never grows |
| `PhpArrays.UnsetLookup` | src/BetterBind.php:43 | after `unset` the key is absent and every other key keeps its value |
| `PhpArrays.WithoutLookup` | src/BetterBind.php:43-45 | dropping a set of names removes exactly those keys and keeps every other key's value |
| `PhpArrays.WithoutKeys` | src/BetterBind.php:45-46 | the keys left after dropping a set of names are the original keys not in that set |
| `PhpArrays.WithoutAbsent` | src/BetterBind.php:43 | dropping names that occur nowhere in the array changes nothing |
| `PhpArrays.UnsetThenWithout` | src/BetterBind.php:38-43 | unsetting declared names one after another leaves what dropping all of them at once leaves |
| `BetterBind.Quote` | src/BetterBind.php:48 | a quoted name is the name between two backticks, two characters longer, and contains the name |
| `BetterBind.QuotedList` | src/BetterBind.php:45-50 | the joined list of leftover keys is empty exactly when there are no leftover keys, and contains every leftover key in backticks |
| `BetterBind.NoConstructorMessage` | src/BetterBind.php:35 | the message names the class and says "no constructor" |
| `BetterBind.RequiredMessage` | src/BetterBind.php:41 | the message says "Required parameter", names the parameter in backticks and names the class |
| `BetterBind.ExtraMessage` | src/BetterBind.php:51 | the message names the class and every leftover key in backticks |
| `BetterBind.Ignored` | src/BetterBind.php:40 | `in_array` with PHP 7's loose comparison: a list holding the name ignores it; a list of strings only ignores exactly the names it holds; a `true` or an integer 0 in the list ignores every name; a list of only nulls, `false` and arrays ignores nothing |
| `BetterBind.ExtraCheck` | src/BetterBind.php:45-51 | the final check passes exactly when nothing is left over; otherwise it fails as "extra", naming the class and every leftover key |
| `BetterBind.Walk` | src/BetterBind.php:37-51 | the walk never reports "no constructor"; every failure names the class; a required failure names a declared parameter that is neither optional nor ignored |
| `BetterBind.Validate` | src/BetterBind.php:30-53 | the "no constructor" failure occurs exactly when there is no constructor and the array is not empty, and says "no constructor"; without a constructor validation passes exactly on the empty array; every failure names the class |
| `BetterBind.AssertParamsMatchConstructor` | src/BetterBind.php:30-53 | the loop over the constructor's parameters, with its working copy and early exit on the first failed assertion, returns exactly the outcome `Validate` specifies |
| `BetterBind.FirstMissing` | src/BetterBind.php:37-42 | the first declared parameter that is required, not ignored and not `isset`, with none missing before it |
| `BetterBind.FirstMissingAfterUnset` | src/BetterBind.php:40-43 | unsetting a name that none of the remaining parameters carries does not change which one is first missing |
| `BetterBind.ValidateWithConstructor` | src/BetterBind.php:36-52 | judged against the supplied array itself: validation fails on the first missing required parameter in declaration order; if there is none, it passes or fails on the supplied keys minus all declared names alone, so a required failure always comes before an extra failure |
| `BetterBind.RequiredFailureIffMissing` | src/BetterBind.php:40-41 | the required-parameter failure occurs if and only if some required, non-ignored declared parameter is absent or null, and its message names such a parameter |
| `BetterBind.OptionalAndIgnoredNeverRequired` | src/BetterBind.php:40 | when every parameter is optional or ignored, no required failure can occur and only the leftover keys decide; this holds even when parameter names repeat |
| `BetterBind.LooseIgnoreExemptsAll` | src/BetterBind.php:40 | with a `true` or an integer 0 in the ignore list, no required failure can occur and only the leftover keys decide |
| `BetterBind.PassIffComplete` | src/BetterBind.php:37-51 | validation passes if and only if no required parameter is missing and every supplied key is declared |
| `BetterBind.ExtraFailureNamesLeftovers` | src/BetterBind.php:45-51 | an extra-parameter failure names the class and every supplied key that no parameter declares, each in backticks |
| `BetterBind.IgnoredNameStillExtra` | src/BetterBind.php:40-51 | an ignored name that the constructor does not declare still makes validation fail |
| `Binder.BetterBinder.constructor` | src/BetterBinder.php:7 | a fresh binder has an empty ignore list |
| `Binder.BetterBinder.IgnoreParameters` | src/BetterBinder.php:9-16 | returns the same binder; a first argument that is an array becomes the whole list, and otherwise the list becomes all the arguments in order; the old list is replaced, never extended |
| `Binder.BetterBinder.GetIgnoreParameters` | src/BetterBinder.php:18-21 | returns the stored list |
| `Binder.IgnoreArrayReturnsSameBinder` | tests/BetterBinderTest.php:13-20 | a fresh binder given the single array `['x']` returns itself, and its getter yields `['x']` |
| `Binder.ChainedCallsReplace` | src/BetterBinder.php:9-16 | a second call on the same binder replaces the first list, and an array argument is stored as the array itself |
| `Bindings.Binding.AppBind` | src/BetterBind.php:12-14 | the binding keeps its signature, class information and factory, and comes with a fresh binder that ignores nothing |
| `Bindings.Binding.Resolve` | src/BetterBind.php:15-21 | the caught array equals the supplied one whatever happens next; a signature that names no class is never validated and the factory's result comes back unchanged; otherwise the factory's result comes back exactly when validation with the binder's current ignore list passes, and a failure carries validation's own message |
| `Bindings.AppInstance` | src/BetterBind.php:25-28 | the binding's factory yields the fixed instance for every parameter array |
| `Bindings.ResolveInstance` | src/BetterBind.php:25-28 | resolving an `appInstance` binding captures the array exactly, yields the fixed instance when it succeeds, and fails only on validation with an empty ignore list |

## Left out

- The Laravel container (`App::bind`, `App::makeWith`) is external. A
  registration is a `Binding` object, and a resolution is a direct call to
  `Binding.Resolve`. Re-registering a signature and the container's global
  state are not modelled.
- Reflection (`class_exists`, `ReflectionClass`, `getConstructor`,
  `getParameters`, `isOptional`) is replaced by inputs. `Option<ClassInfo>`
  says whether the signature names a class. `ClassInfo` holds the
  constructor as a list of parameter names with their optional flags, or
  `None` when there is no constructor.
- The closure's `$app` argument is not modelled; the factory is a function
  of the parameter array only.
- A failed assertion is an `Outcome` or `Resolution` value carrying the
  helper's own message. The text that PHPUnit appends ("Failed asserting
  that actual size ...") and the exception itself are not modelled.
- Loose comparison in `in_array` follows PHP 7. It is modelled only for
  values compared with a parameter name. PHP only accepts names
  (`ParamName`) as parameter names, so a name is never empty, never "0" and
  never numeric. Under PHP 8 a string no longer equals the integer 0; that
  version is not modelled.
- An object in the ignore list never matches a name. PHP would compare an
  object that has a `__toString` method by its string form; such objects
  are not modelled.
- Parameter-array keys are strings. PHP turns numeric-string keys into
  integer keys; that conversion is not modelled.
- Type-compatibility and scalar-coercion checking is not modelled. No code
  in src/BetterBind.php implements it. tests/fixtures/INeedParamsWithAllTheTypes.php
  only declares typed parameters.
- Binder.BetterBinder.IgnoreParameters: requires at least one argument,
  because the source reads `$params[0]` unconditionally. The zero-argument
  call, which reads an undefined offset, is not modelled.
- BetterBind.ValidateWithConstructor: requires distinct parameter names,
  which PHP enforces for every function. The validator itself
  (`AssertParamsMatchConstructor`) and `OptionalAndIgnoredNeverRequired`
  hold without that requirement.
- BetterBind.RequiredFailureIffMissing: requires distinct parameter names,
  as above.
- BetterBind.PassIffComplete: requires distinct parameter names, as above.
- BetterBind.ExtraFailureNamesLeftovers: requires distinct parameter names,
  as above.
- BetterBind.IgnoredNameStillExtra: requires distinct parameter names, as
  above.
