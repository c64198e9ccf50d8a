# OpenPNM core bookkeeping in Dafny

This project models three sequential pieces of OpenPNM, the pore network modelling package.

- **Drainage** (`openpnm/algorithms/_drainage.py`): access-limited invasion of a network at an
  applied pressure, with trapping of the defending phase. The `Drainage` object owns eight boolean
  arrays:
  - per pore: `inlets`, `outlets`, `invaded`, `residual`, `trapped`;
  - per throat: `invaded`, `residual`, `trapped`.

  `reset` clears them. `set_inlets`, `set_outlets`, `set_residual` and `set_trapped` switch
  entries on. `run(pressure)` performs one invasion step. The model is the class
  `Drainage.DrainageAlgorithm`: its fields are `array<bool>`s that the methods update in place.
  Each method is proved against `RunStep` and the other functions on values.
- **Boundary conditions** (`openpnm/algorithms/_generic_algorithm.py`): `set_BC` edits a family
  of per-pore arrays `pore.bc.<type>`. In the model an entry is `Some(value)` or `None`, where
  `None` stands for no value (NaN in the source). It has four modes: `add`, `overwrite`, `remove`
  and `clear`, each with an optional `force`. A list of modes is applied in order. `isfinite`
  decides what holds a value. `GenericAlgorithm.Algorithm` is the object:
  - its `bc` map is reassigned by `SetBC` through loops that mirror the source;
  - `SetBCOf` and the mode functions are the specification it is proved against;
  - at most one type holds a value at any pore, an invariant of the class.
- **Names, indices and stored arrays** (`openpnm/core/Base.py`):
  - `__setitem__` checks key names, nesting conflicts and array lengths, and broadcasts
    scalars. It is modelled by the class `CoreBase.Base` over a `map` from keys to arrays, with
    the functions `Stored` and `Assigned`.
  - `_count`, `_tomask`, `to_mask`, `to_indices` and `_parse_indices`.
  - The name normalisers `_parse_element`, `_parse_mode` and `_parse_labels` (module
    `Parsing`).

Supporting modules:

- `Wrappers`: Option and Result.
- `PyStr`: the Python `str` methods the name handling uses.
  - `split`/`join` on one character, with their round trips proved.
  - `count`, `startswith`, `endswith`, `in`, `strip`, ASCII `lower`, `rsplit(maxsplit=1)` and
    `replace`.
- `NdIndex`: numpy indexing of a one-dimensional array by integer positions (a negative one
  counts from the end) or by a boolean mask. Anything else is an IndexError.
- `Percolation`: the three `openpnm._skgraph.simulations` helpers that `run` calls.
  - Their bodies are not part of this model; they are defined by reachability over the throat
    list `(i, j)`.
  - A site label is `>= 0` exactly when the site ends an open throat. Two sites share a label
    exactly when open throats link them.
  - A bond label is `>= 0` exactly when the bond is open. It equals the label of its ends.
  - Which number a cluster gets is left free, apart from this: the model picks the least pore
    of the cluster.

Some behaviour of the code is easy to misread; the model follows the code:

- `_parse_element` and `_parse_mode` drop repeats with `[l.remove(x) for x in l if l.count(x) > 1]`.
  This iterates over a list that shrinks as it goes, so it is not a full deduplication:
  `['a', 'a', 'a', 'a']` becomes `['a', 'a']` (`Parsing.RepeatsRemovedFour`). So
  `_parse_mode(['add'] * 4, single=True)` raises, although all four modes are the same.
- For a chain of pores 0-1-2 with throat (0,1) invaded and outlet 2, one might expect pore 0 and
  throat (0,1) to be trapped. The labelling code traps nothing there
  (`Drainage.InvadedPocketExample`). A pore all of whose throats are invaded ends no
  non-invaded throat, so its defending-phase label is -1. An invaded throat is never
  trapped. `Drainage.TrappedExample` shows a pocket the code does trap.
- `_parse_labels` keeps `temp` from one label to the next. A star in the middle of the first
  label raises, because `temp` is not yet bound. In a later label it reuses the previous list,
  prefixed with the element again (`Parsing.ParsedLabelStaleSecond`).
- `__setitem__` refuses `pore.a` when any existing key with two dots starts with `pore.a`.
  That includes `pore.ab.c`, because the test is a plain prefix test (`CoreBase.StoredPrefixClash`).
- `['remove', 'add']` equals `'overwrite'`, as the docstring of `set_BC` says
  (`_generic_algorithm.py:126-127` and `:145-149`), once the type exists and some
  value is given (`GenericAlgorithm.RemoveAddIsOverwrite`). When the type does not exist, `remove`
  can pass silently while `add` raises a KeyError.

## Model

| member | source | states |
|---|---|---|
| Drainage.DrainageAlgorithm.constructor | openpnm/algorithms/_drainage.py:57-61 | a new algorithm's eight arrays have the network's sizes and are all False |
| Drainage.DrainageAlgorithm.Reset | openpnm/algorithms/_drainage.py:63-71 | all eight pore and throat arrays become fresh, distinct, all-False arrays |
| Drainage.DrainageAlgorithm.SetInlets | openpnm/algorithms/_drainage.py:73-74 | exactly the given pores become True in `pore.inlets` and every other entry and array is unchanged; an out-of-range index changes nothing and is reported; `mode` plays no part |
| Drainage.DrainageAlgorithm.SetOutlets | openpnm/algorithms/_drainage.py:76-77 | as SetInlets, on `pore.outlets` |
| Drainage.DrainageAlgorithm.SetResidual | openpnm/algorithms/_drainage.py:79-83 | the pore array changes only when pores are given and the throat array only when throats are given, each only by switching the given entries on; the pore write stands when the throat index then fails |
| Drainage.DrainageAlgorithm.SetTrapped | openpnm/algorithms/_drainage.py:85-89 | as SetResidual, on the trapped arrays |
| Drainage.DrainageAlgorithm.Run | openpnm/algorithms/_drainage.py:91-107 | the in-place updates leave exactly the state `RunStep` describes, and the arrays stay distinct and sized |
| Drainage.OpenThroats | openpnm/algorithms/_drainage.py:94-96 | a throat is open iff its entry threshold is <= pressure or it is residual; pore residual plays no part |
| Drainage.RunStep | openpnm/algorithms/_drainage.py:91-107 | run never clears an invaded or trapped flag, leaves inlets, outlets and residual arrays unchanged, and touches neither trapped array when no pore is an outlet |
| Drainage.RunInvades | openpnm/algorithms/_drainage.py:94-101 | after run a pore is invaded iff it was, or it ends an open throat and an inlet reaches it through open throats; a throat iff it was, or it is open and an inlet reaches its ends |
| Drainage.RunTraps | openpnm/algorithms/_drainage.py:102-107 | with an outlet present, trapped gains exactly the pores and throats that the updated throat.invaded cuts off from every outlet |
| Drainage.RunIdempotent | openpnm/algorithms/_drainage.py:91-107 | running twice at the same pressure gives the state of running once |
| Drainage.RunPressureMonotone | openpnm/algorithms/_drainage.py:94-101 | from the same state a higher pressure invades every pore and throat a lower one does |
| Drainage.AccessLimitedExample | openpnm/algorithms/_drainage.py:97-101 | an open throat cut off from every inlet is not invaded |
| Drainage.ConnectedExample | openpnm/algorithms/_drainage.py:97-101 | a chain of open throats from an inlet is invaded end to end |
| Drainage.InvadedPocketExample | openpnm/algorithms/_drainage.py:103-107 | on the chain 0-1-2 with throat 0-1 invaded and outlet 2, no pore and no throat is trapped |
| Drainage.TrappedExample | openpnm/algorithms/_drainage.py:103-107 | on the chain 0-1-2-3 with throat 1-2 invaded and outlet 3, pores 0 and 1 and throat 0-1 are trapped, and the rest is not |
| Drainage.OrInto | openpnm/algorithms/_drainage.py:100-101 | `a[mask] = True` in place leaves the elementwise or of the old array and the mask |
| Drainage.WriteTrue | openpnm/algorithms/_drainage.py:74 | `a[pores] = True` in place leaves exactly the old entries and the given positions True |
| Drainage.MarkAt | openpnm/algorithms/_drainage.py:74 | indexing succeeds iff every position is in range, and then only switches entries on |
| Percolation.BondPercolationClusters | openpnm/algorithms/_drainage.py:97 | site labels are >= 0 iff the site ends an open throat, equal iff the sites are linked by open throats; bond labels are >= 0 iff open and equal the labels of both ends |
| Percolation.SourceClustersReach | openpnm/algorithms/_drainage.py:97-98 | after keeping the clusters touching an inlet, a site is labelled iff it ends an open throat and an inlet reaches it; a bond iff it is open and an inlet reaches its ends |
| Percolation.FindConnectedClusters | openpnm/algorithms/_drainage.py:98 | a label survives iff some source site carries it; the others become -1 |
| Percolation.TrappedClustersIsolated | openpnm/algorithms/_drainage.py:103-105 | a pore is trapped iff it ends a non-invaded throat and no outlet reaches it through non-invaded throats; a throat iff it is not invaded and no outlet reaches its ends |
| Percolation.ClusterOf | openpnm/algorithms/_drainage.py:97 | the closure computing a cluster holds exactly the sites linked to its seed |
| Percolation.LinkedMonotone | openpnm/algorithms/_drainage.py:94-97 | opening more throats never disconnects two linked sites |
| GenericAlgorithm.IsFiniteBools | openpnm/algorithms/_generic_algorithm.py:233-234 | a bool array holds a value exactly where it is True |
| GenericAlgorithm.IsFiniteMeansPresent | openpnm/algorithms/_generic_algorithm.py:235-238 | a NaN-padded float array and an option array compared with `inf=None` agree, and both hold a value exactly where an entry is present |
| GenericAlgorithm.IsFiniteInfinity | openpnm/algorithms/_generic_algorithm.py:235-236 | infinities count as values; only NaN is no value |
| GenericAlgorithm.Held | openpnm/algorithms/_generic_algorithm.py:192 | `isfinite(arr[pores])` is True exactly at the positions whose pore holds a value |
| GenericAlgorithm.LastHit | openpnm/algorithms/_generic_algorithm.py:200 | the position whose value a repeated pore receives is the last marked one addressing it |
| GenericAlgorithm.PutStep | openpnm/algorithms/_generic_algorithm.py:200 | the fancy assignment is the left-to-right fold of single writes |
| GenericAlgorithm.PutInto | openpnm/algorithms/_generic_algorithm.py:200 | the loop of single writes leaves exactly `arr[pores[mask]] = vals[mask]` |
| GenericAlgorithm.PutWrites | openpnm/algorithms/_generic_algorithm.py:200 | every marked pore receives a value supplied for that pore |
| GenericAlgorithm.PutNones | openpnm/algorithms/_generic_algorithm.py:195 | writing no value only removes values, and removes them at every marked pore |
| GenericAlgorithm.ClearedEverywhere | openpnm/algorithms/_generic_algorithm.py:204-206 | the force loop leaves every other type without a value at every given pore |
| GenericAlgorithm.ClearedAtFixed | openpnm/algorithms/_generic_algorithm.py:193-195 | clearing types that hold nothing at the marked pores changes nothing |
| GenericAlgorithm.AddedKeeps | openpnm/algorithms/_generic_algorithm.py:190-200 | `add` never changes a pore where the type already holds a value; without force it leaves pores held by other types alone and changes no other array |
| GenericAlgorithm.AddedWrites | openpnm/algorithms/_generic_algorithm.py:190-200 | `add` writes one of the values supplied for a pore at every given pore the type does not hold, if no other type holds it or force is set |
| GenericAlgorithm.AddedClears | openpnm/algorithms/_generic_algorithm.py:190-194 | `add` with force leaves every other type without a value at the given pores the type did not hold |
| GenericAlgorithm.OverwrittenSucceeds | openpnm/algorithms/_generic_algorithm.py:203-213 | `overwrite` at in-range pores with one value per pore raises nothing |
| GenericAlgorithm.OverwrittenWrites | openpnm/algorithms/_generic_algorithm.py:203-211 | `overwrite` writes a supplied value at every given pore not held by another type, and with force at every given pore |
| GenericAlgorithm.OverwrittenClears | openpnm/algorithms/_generic_algorithm.py:204-206 | `overwrite` with force leaves the other types without a value at the given pores |
| GenericAlgorithm.RemovedClears | openpnm/algorithms/_generic_algorithm.py:214-222 | `remove` raises nothing and clears the type at every given pore not held by another type; with force every type is cleared at every given pore |
| GenericAlgorithm.ClearedAllEmpties | openpnm/algorithms/_generic_algorithm.py:225-229 | `clear` leaves the type without any value, and with force every type; without force the other types are unchanged |
| GenericAlgorithm.UntouchedPores | openpnm/algorithms/_generic_algorithm.py:189-224 | under `add`, `overwrite` and `remove`, pores that are not given keep their entries in every array |
| GenericAlgorithm.AddedOneType | openpnm/algorithms/_generic_algorithm.py:190-200 | `add` keeps at most one type per pore |
| GenericAlgorithm.OverwrittenOneType | openpnm/algorithms/_generic_algorithm.py:203-211 | `overwrite` keeps at most one type per pore |
| GenericAlgorithm.RemovedOneType | openpnm/algorithms/_generic_algorithm.py:214-222 | `remove` keeps at most one type per pore |
| GenericAlgorithm.AppliedOneType | openpnm/algorithms/_generic_algorithm.py:189-229 | every mode keeps at most one type per pore |
| GenericAlgorithm.AppliedRaises | openpnm/algorithms/_generic_algorithm.py:189-229 | a mode only ever raises an unknown-type KeyError, an IndexError, or the error of writing values that were not given |
| GenericAlgorithm.AppliedUnforcedError | openpnm/algorithms/_generic_algorithm.py:189-224 | without force, a mode that raises has changed nothing |
| GenericAlgorithm.SetOneRejects | openpnm/algorithms/_generic_algorithm.py:169-178 | a non-string bctype raises; a mode outside overwrite/add/remove/clear raises, and is the only thing that raises that error; neither changes anything |
| GenericAlgorithm.SetOneMismatch | openpnm/algorithms/_generic_algorithm.py:186-187 | more than one value for a different number of pores raises and changes nothing |
| GenericAlgorithm.SetOneBroadcast | openpnm/algorithms/_generic_algorithm.py:181-183 | a single value acts as that value once for every given pore |
| GenericAlgorithm.SetOneUnforcedError | openpnm/algorithms/_generic_algorithm.py:168-224 | without force, a call that raises has changed nothing |
| GenericAlgorithm.SetOneAllowed | openpnm/algorithms/_generic_algorithm.py:168-187 | an allowed mode on an existing type parses the pores, broadcasts and checks the values, then applies the mode |
| GenericAlgorithm.SetTwo | openpnm/algorithms/_generic_algorithm.py:161-166 | a two-mode list is the first mode and then, unless it raised, the second |
| GenericAlgorithm.RemoveAddUnforced | openpnm/algorithms/_generic_algorithm.py:203-222 | without force, remove followed by add at in-range pores is overwrite |
| GenericAlgorithm.RemoveAddForced | openpnm/algorithms/_generic_algorithm.py:190-222 | with force, remove followed by add at in-range pores is overwrite |
| GenericAlgorithm.AppliedRemoveAdd | openpnm/algorithms/_generic_algorithm.py:189-222 | remove then add equals overwrite once the pores are parsed, out-of-range pores included |
| GenericAlgorithm.RemoveAddIsOverwrite | openpnm/algorithms/_generic_algorithm.py:145-149 | `set_BC(..., mode=['remove', 'add'])` gives the same arrays and error as `mode='overwrite'` for any pores, values and force, once the type exists and a value is given |
| GenericAlgorithm.SetOneOneType | openpnm/algorithms/_generic_algorithm.py:156-157 | one call keeps at most one type per pore |
| GenericAlgorithm.SetFromOneType | openpnm/algorithms/_generic_algorithm.py:161-166 | a list of modes keeps at most one type per pore, however long |
| GenericAlgorithm.SetBCOneType | openpnm/algorithms/_generic_algorithm.py:156-157 | set_BC keeps at most one type per pore whatever it is given |
| GenericAlgorithm.Algorithm.constructor | openpnm/algorithms/_generic_algorithm.py:39-43 | the algorithm starts with the given types, each holding no value anywhere |
| GenericAlgorithm.Algorithm.ClearTypes | openpnm/algorithms/_generic_algorithm.py:193-195 | the loop over the other types clears exactly what `ClearedAt` describes |
| GenericAlgorithm.Algorithm.FreeOf | openpnm/algorithms/_generic_algorithm.py:197-198 | the loop over the other types unsets the mask exactly where `Free` says |
| GenericAlgorithm.Algorithm.Add | openpnm/algorithms/_generic_algorithm.py:190-202 | the in-place `add` leaves the arrays and error of `Added` |
| GenericAlgorithm.Algorithm.Overwrite | openpnm/algorithms/_generic_algorithm.py:203-213 | the in-place `overwrite` leaves the arrays and error of `Overwritten` |
| GenericAlgorithm.Algorithm.Remove | openpnm/algorithms/_generic_algorithm.py:214-224 | the in-place `remove` leaves the arrays and error of `Removed` |
| GenericAlgorithm.Algorithm.Clear | openpnm/algorithms/_generic_algorithm.py:225-229 | the in-place `clear` leaves the arrays of `ClearedAll` |
| GenericAlgorithm.Algorithm.ClearOthers | openpnm/algorithms/_generic_algorithm.py:227-229 | the force loop of `clear` leaves every array without a value |
| GenericAlgorithm.Algorithm.Apply | openpnm/algorithms/_generic_algorithm.py:189-229 | the mode dispatch leaves the arrays and error of `Applied` |
| GenericAlgorithm.Algorithm.SetMode | openpnm/algorithms/_generic_algorithm.py:168-229 | one call leaves the arrays and error of `SetOne` |
| GenericAlgorithm.Algorithm.SetBC | openpnm/algorithms/_generic_algorithm.py:94-229 | set_BC leaves the arrays and error of `SetBCOf`, applying a list of modes in order and stopping at the first that raises, and keeps at most one type per pore |
| Parsing.RemoveRepeats | openpnm/core/Base.py:1097 | the in-place removal loop computes `RepeatsRemovedFrom` |
| Parsing.Occurrences | openpnm/core/Base.py:1012 | `l.count(x)` is zero exactly when x is not in the list |
| Parsing.RepeatsRemovedKeeps | openpnm/core/Base.py:1012 | the removal keeps every distinct item and never adds one |
| Parsing.RepeatsRemovedDistinct | openpnm/core/Base.py:1012 | a list without repeats is left as it is |
| Parsing.RepeatsRemovedPair | openpnm/core/Base.py:1012 | two copies become one |
| Parsing.RepeatsRemovedFour | openpnm/core/Base.py:1012 | four copies become two: the removal is not a full deduplication |
| Parsing.ParseElement | openpnm/core/Base.py:997-1018 | the list-rewriting loop returns or raises what `ParsedElement` does |
| Parsing.ParsedElementRaises | openpnm/core/Base.py:1008-1010 | it raises the pore-or-throat error exactly when some normalised name is neither |
| Parsing.ParsedElementNames | openpnm/core/Base.py:1002-1012 | every returned element is 'pore' or 'throat', and every given name's element is returned |
| Parsing.ElementOfProperty | openpnm/core/Base.py:1003-1007 | 'Throat.diameter' normalises to 'throat' |
| Parsing.ElementOfPlural | openpnm/core/Base.py:1007 | 'pores' normalises to 'pore' |
| Parsing.ParsedElementNone | openpnm/core/Base.py:997-998 | None gives both elements, and raises with single |
| Parsing.ParsedElementPlural | openpnm/core/Base.py:1000-1018 | 'pores' with single gives 'pore' |
| Parsing.ParsedElementProperty | openpnm/core/Base.py:1000-1018 | 'Throat.diameter' with single gives 'throat' |
| Parsing.ParsedElementErrors | openpnm/core/Base.py:1008-1017 | 'bond' raises, and an empty list with single fails at `[0]` |
| Parsing.ParsedElementMany | openpnm/core/Base.py:1008-1016 | with `single` set, any names that all normalise to elements and include both 'pore' and 'throat' raise, since the removal leaves one of each |
| Parsing.ParsedElementFourCopies | openpnm/core/Base.py:1012-1016 | four copies of 'pore' with single raise, since two remain |
| Parsing.ParseMode | openpnm/core/Base.py:1090-1103 | the loops return or raise what `ParsedMode` does |
| Parsing.ParsedModeAllowed | openpnm/core/Base.py:1092-1097 | it raises exactly when a given mode is outside `allowed`; every returned mode is allowed and none of the given ones is lost |
| Parsing.ParsedModeSingle | openpnm/core/Base.py:1090-1103 | a single allowed mode string comes back as itself |
| Parsing.ParsedModeFourCopies | openpnm/core/Base.py:1097-1101 | four copies of a mode with single raise |
| Parsing.ParseLabels | openpnm/core/Base.py:1036-1062 | the appending loop returns or raises what `ParsedLabels` does |
| Parsing.ParsedLabelPlain | openpnm/core/Base.py:1044-1057 | a label without a star gives `element + '.' + L`, where L is the part after the last dot when the label contains the element's name and the label itself otherwise |
| Parsing.ParsedLabelLeading | openpnm/core/Base.py:1047-1053 | '*x' gives `element + '.' + L` for exactly the labels L ending in x |
| Parsing.ParsedLabelTrailing | openpnm/core/Base.py:1047-1053 | 'x*' gives `element + '.' + L` for exactly the labels L starting with x |
| Parsing.ParsedLabelStale | openpnm/core/Base.py:1047-1053 | a star inside the first label that neither starts nor ends with one leaves `temp` unbound, which raises |
| Parsing.StaleTempReused | openpnm/core/Base.py:1047-1053 | a star inside a later label reuses the previous pass's `temp`, prefixed with the element once more |
| Parsing.ParsedLabelStaleSecond | openpnm/core/Base.py:1041-1061 | `['a', 'b*c']` for pores gives `['pore.a', 'pore.pore.a']` |
| Parsing.ParsedIndices | openpnm/core/Base.py:961-974 | None gives no indices; integers pass through; a mask of length Np gives its True positions in increasing order, else one of length Nt; any other mask length raises |
| Parsing.ToIndices | openpnm/core/Base.py:622-626 | it raises iff the mask is empty (`np.amax`), an entry exceeds 1, or the length is neither Np nor Nt; otherwise it gives exactly the nonzero positions in increasing order |
| NdIndex.Positions | openpnm/algorithms/_drainage.py:74 | indexing succeeds iff every integer is within `-n <= i < n` or the mask has the array's length; a mask addresses exactly its True positions |
| NdIndex.Normalize | openpnm/algorithms/_drainage.py:74 | a negative index addresses the entry that many places from the end |
| NdIndex.TrueIndices | openpnm/core/Base.py:965-969 | `Ps[mask]` gives exactly the True positions, in increasing order |
| PyStr.JoinSplit | openpnm/core/Base.py:122 | joining the pieces of a split gives back the string |
| PyStr.SplitJoin | openpnm/core/Base.py:122 | splitting a join of separator-free pieces gives back the pieces |
| PyStr.SplitCount | openpnm/core/Base.py:121-122 | a split has one piece more than the string has separators |
| PyStr.RootOfLong | openpnm/core/Base.py:122-123 | a key with two or more dots starts with its `'.'.join(key.split('.')[:2])` root, which holds exactly one dot |
| PyStr.Head | openpnm/core/Base.py:108 | `key.split('.')[0]` is the part before the first dot, or the whole key |
| PyStr.Strip | openpnm/core/Base.py:1050-1052 | `strip('*')` removes exactly the leading and trailing stars |
| PyStr.BeforeLast | openpnm/core/Base.py:1007 | `rsplit('s', maxsplit=1)[0]` is everything before the last 's', or the whole string |
| PyStr.Replace | openpnm/core/Base.py:103 | a string without the pattern is left as it is |
| CoreBase.Stored | openpnm/core/Base.py:107-169 | a stored array leaves `pore.all`/`throat.all` present and every other key as it was |
| CoreBase.StoredNames | openpnm/core/Base.py:107-110 | a key not starting with 'pore' or 'throat' raises, and every stored key starts with 'pore.' or 'throat.' |
| CoreBase.StoredNesting | openpnm/core/Base.py:120-130 | 'pore.a.b' raises exactly when 'pore.a' exists; 'pore.a' raises exactly when an existing long key starts with it |
| CoreBase.StoredPrefixClash | openpnm/core/Base.py:126-130 | 'pore.a' is refused beside 'pore.ab.c' |
| CoreBase.StoredUnnested | openpnm/core/Base.py:120-130 | a successful store never puts 'pore.a.b' beside 'pore.a' |
| CoreBase.StoredLength | openpnm/core/Base.py:159-169 | for every key with a property that passes the nesting checks, long dict-entry keys included, a length-1 value is broadcast to `_count(element)`; another length is stored iff it equals the count or the count is 0, and raises otherwise |
| CoreBase.StoredKeepsAll | openpnm/core/Base.py:147-157 | an existing non-empty '*.all' array is never overwritten |
| CoreBase.Assigned | openpnm/core/Base.py:97-105 | every assignment keeps `pore.all` and `throat.all` |
| CoreBase.AssignedUnder | openpnm/core/Base.py:97-169 | every key an assignment adds or changes starts with the key assigned to |
| CoreBase.AssignedUnnested | openpnm/core/Base.py:97-169 | an assignment, dicts included, keeps the dictionary free of nesting conflicts |
| CoreBase.MaskOfTrueIndices | openpnm/core/Base.py:548-549 | the mask of a mask's True positions is the mask |
| CoreBase.TrueIndicesOfMask | openpnm/core/Base.py:548-549 | the True positions of the mask of some positions are those positions |
| CoreBase.FillMask | openpnm/core/Base.py:548-549 | the zero-filled array written at the given positions is `MaskOf` |
| CoreBase.TomaskedTrue | openpnm/core/Base.py:544-550 | `_tomask` returns an array of length N that is True exactly at the given indices, a negative one counting from the end; an out-of-range index raises |
| CoreBase.Base.constructor | openpnm/core/Base.py:79-80 | a new object holds `pore.all` and `throat.all` of all True at the given sizes |
| CoreBase.Base.ElementCount | openpnm/core/Base.py:874-876 | `_count` is Np for 'pore' and Nt for 'throat', and raises exactly when `_parse_element(single=True)` does |
| CoreBase.Base.SetItem | openpnm/core/Base.py:88-169 | the recursive assignment leaves the dictionary and error of `Assigned` and keeps it free of nesting conflicts |
| CoreBase.Base.Tomask | openpnm/core/Base.py:539-550 | fills a fresh mask as `Tomasked` describes |
| CoreBase.Base.ToMask | openpnm/core/Base.py:587-593 | raises unless exactly one of pores and throats is given, including neither; otherwise the mask of that element |

## Left out

- Floating point: entry thresholds and pressures are `real`. A NaN threshold, which never
  compares `<=`, is not modelled.
- The `'site'` invasion mode in the drainage settings is not modelled: `run` implements only
  throat thresholds.
- Phase lookup: `run` takes the phase's `throat.entry_pressure` array as a parameter, instead of
  reading it through the project.
- The percolation helpers of `openpnm._skgraph` are not part of this model. They are specified
  by reachability, and cluster numbering is left free.
- `__main__` demo and plotting in `_drainage.py`.
- Projects and workspaces (`ws`, `project`, `find_full_domain`, the subdomain check at
  `Base.py:131-136`). The model follows the project-free branch of `__setitem__`
  (`Base.py:117-119`): the keys checked for nesting conflicts are the object's own.
- Names, settings and `uuid`s are not modelled.
- `Parsing.ParsedLabels` takes the object's label names (`self.labels()`) as a parameter.
- `Parsing.ParsedMode`: `_parse_mode` also rewrites the caller's list in place. The model returns
  the result and does not show that list changing afterwards.
- `Lower` folds only ASCII letters; Python's `str.lower` also folds other scripts.
- Arrays are one-dimensional. `pore.coords` and `throat.conns` are stored as given, without
  their second axis being modelled.
- `CoreBase.Stored`: a shape test on a scalar, a dtype cast or a warning is not modelled.
  "Already defined" on a non-empty `*.all` array leaves the dictionary unchanged, without the
  warning.
- The value written as no value: in the source `no_bc` is NaN when the values are floats and
  `False` otherwise. Writing `False` into a float array stores 0.0, which `isfinite` then counts
  as a value. The model always writes `None`.
- `bcvalues=None`: `np.array(None)` is a 0-d object array, so line 183 computes `1 * None` and
  raises a TypeError whenever `pores` is not empty, in every mode. The model takes a sequence of
  values.
- A mode list nested inside a mode list is not modelled: that would be recursion inside the
  recursion of `set_BC`. The model takes a string or a flat list of strings.
- `set_BC` reads the type names as the keys of `self['pore.bc']`, which comes from the `Base2`
  dictionary with nested keys. `Base2` is not part of this model, and the types are the keys of
  the `bc` map.
- numpy fancy assignment is taken to check every index before it writes any. The last write to
  a repeated pore wins.
- Logging (`logger.warning` when no pore qualifies) and `warnings.warn` are left out; they do not
  change state.
- `interleave_data`, `props`, `keys(deep=True)`, `clear`, `show_hist`, `interpolate_data`,
  `get_conduit_data`, iterative props and the diffusivity models: they depend on other objects
  in the project or on floating-point correlations.
