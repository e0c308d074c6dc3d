# Curved-track STL generation: a Dafny model

This project models the helper scripts that batch-export model-railway curve
track from OpenSCAD to STL. Three parts are modelled:

* **The sleeper-density curve** (`calculate_diverse` in `batch_generate.py`).
  It is a parabola over the curve radius with its vertex at R64 (density 500),
  capped at 1800. The coefficient 0.8125 is exactly 13/16, and `int()` of a
  positive value rounds down. So the model computes the curve in integer
  arithmetic and proves it equal to the source's formula over the reals. The
  batch tables of radii, angles and densities are modelled as constants.
* **Render parameters and file names** (`generate_stls.py`).
  - The table of the four part configurations.
  - The `-D 'name=value'` assignment list passed to OpenSCAD.
  - The `r{radius}_{config}.stl` output name.

  The assignment list and the file name are each paired with a reader
  (`ScadDefines.ParseAll`, `GenerateStls.ParseOutputFileName`, and
  `DecimalText.ParseInt` for the numbers in both). The readers show that each
  string carries exactly the intended values, and that no two
  renders share a file when the requested radii are distinct.
* **Best-effort sweeps.** These are the loop over configurations for one
  radius, the generator's main loop over radii, and the batch loop over R24 to
  R120. The renderer is a foreign process. How each render ended is therefore
  an input sequence of `Outcomes.RenderOutcome` values: `Exited(status)`,
  `TimedOut` or `Raised`. The loops become methods whose counts, failure lists
  and exit status are stated exactly against recursive reference definitions
  (`CountSucceeded`, `FailedItems`, `Jobs`).

Modules: `Wrappers` (Option and Result), `DecimalText` (Python's `str()` of an
int, and a reader for it), `ScadDefines` (the `-D` assignment format),
`Outcomes` (render outcomes and the counts kept over them), `Diverse`,
`GenerateStls`, `BatchGenerate`.

## Where the scripts' own help text and code differ

The model follows the code:

* The `-d` help text says the default density is 1800. In the code the default
  is "no `diverse` assignment at all", which leaves the default to the
  geometry file. The model follows the code.
* The usage example in `generate_stls.py` passes `-c ballast_only`, which is
  not a table name, so argparse refuses it (see
  `GenerateStls.UsageExampleConfigUnknown`).

## Model

| member | source | states |
|---|---|---|
| Diverse.CalculateDiverse | batch_generate.py:36-51 | the density for every integer radius lies between the minimum 500 and the maximum 1800 |
| Diverse.DiverseMatchesSourceFormula | batch_generate.py:43-51 | the integer computation equals `min(floor(0.8125 * (r - 64)^2 + 500), 1800)` taken over the reals, for every radius |
| Diverse.DiverseMinimum | batch_generate.py:38-39 | the density is 500 exactly at radii 63, 64 and 65: the vertex R64 and its neighbours, whose 13/16 increment `int()` drops |
| Diverse.DiverseCap | batch_generate.py:40-44 | the density is 1800 exactly when the radius is at most 24 or at least 104, so R24, R104 and every larger radius give 1800 |
| Diverse.DiverseSymmetric | batch_generate.py:50 | radii equally far below and above 64 get the same density |
| Diverse.DiverseGrowsWithDistance | batch_generate.py:50-51 | a radius farther from 64 never gets a smaller density |
| Diverse.DiverseFallsToVertex | batch_generate.py:33-35 | up to R64 the density never increases as the radius grows |
| Diverse.DiverseRisesFromVertex | batch_generate.py:33-35 | from R64 on the density never decreases as the radius grows |
| BatchGenerate.RadiiRange | batch_generate.py:11-12 | the batch radii are the 13 values 24, 32, …, 120, step 8 |
| BatchGenerate.AngleMapCoversRadii | batch_generate.py:17-31 | the angle table has a key for every batch radius and no other key |
| BatchGenerate.AnglesNonIncreasing | batch_generate.py:14-31 | along the radius list the segment angle never increases |
| BatchGenerate.DiverseMapValues | batch_generate.py:54 | the density table maps R24…R120 to 1800, 1332, 968, 708, 552, 500, 552, 708, 968, 1332, 1800, 1800, 1800 |
| BatchGenerate.TablesCoverRadius | batch_generate.py:159-161 | both table lookups in the batch loop succeed for every radius, so no KeyError is raised |
| BatchGenerate.FilesPerRadiusMatchesConfigurations | batch_generate.py:169-170 | the factor 4 in the file totals is the number of configurations the generator renders per radius |
| BatchGenerate.FailedRadiiExact | batch_generate.py:159-166 | a radius is listed as failed iff its run failed, and the list is in increasing order, the order the radii were tried in |
| BatchGenerate.PlanInvocations | batch_generate.py:158-162 | the generator is run once per batch radius, in list order, with that radius's table angle and the curve's density for it |
| BatchGenerate.Sweep | batch_generate.py:155-165 | over any radius list, the success count is the number of zero-status runs and the failed list is exactly the failed radii in order; together they account for every radius |
| BatchGenerate.RunBatch | batch_generate.py:156-181 | every radius is run once with its table angle and curve density. Successes plus failures equal 13; successful files are 4 × successes and at most the 52 total files; exit status 1 iff some radius failed |
| Outcomes.CountSucceeded | generate_stls.py:252-253 | the success count never exceeds the number of renders |
| Outcomes.CountSucceededAll | generate_stls.py:261-262 | the success count equals the number of renders iff every render exited with status 0 |
| Outcomes.CountSucceededAppend | generate_stls.py:252-253 | the success count of consecutive groups of renders is the sum of their counts |
| Outcomes.CountSucceededExtend | generate_stls.py:252-253 | adding the count of the next stretch of renders to an exact running tally gives the exact tally of the longer prefix |
| Outcomes.FailedItems | batch_generate.py:163-166 | the failed list and the success count together account for every item tried |
| Outcomes.FailedItemsMembers | batch_generate.py:163-166 | an item is in the failed list iff some render of it failed |
| Outcomes.FailedItemsIncreasing | batch_generate.py:159-166 | when the items are tried in increasing order, the failed list is increasing too |
| DecimalText.IntToString | generate_stls.py:58 | Python's `str()` of an int: only digits for a non-negative value and a `-` followed by digits for a negative one, with no leading zero (zero is exactly `0`) |
| DecimalText.IntToStringRoundTrip | generate_stls.py:58 | the decimal text of any integer reads back as that integer |
| DecimalText.IntToStringInjective | generate_stls.py:136 | different integers get different decimal text |
| ScadDefines.RenderAll | generate_stls.py:69 | the rendered assignments joined by single spaces: each `-D '…=…'` has at least six characters, so n assignments give at least 7n − 1; `ParseRenderAll` reads it back as the list |
| ScadDefines.RenderAllFraming | generate_stls.py:58-69 | the joined text is empty iff there are no assignments; otherwise it starts with `-D '` and ends with a quote |
| ScadDefines.ParseOneRender | generate_stls.py:58-62 | a quoted `-D 'name=value'` is read back whole, whatever text follows it |
| ScadDefines.ParseRenderAll | generate_stls.py:57-69 | the space-joined assignment list reads back as exactly the list, in order |
| GenerateStls.ConfigurationsWellFormed | generate_stls.py:15-36 | four configurations with distinct names and distinct switch settings. Every switch is "true" or "false", and ballast is "true" in all four |
| GenerateStls.Lookup | generate_stls.py:53 | the lookup finds nothing iff no entry has the name, and otherwise returns the switches of an entry with that name |
| GenerateStls.LookupKnown | generate_stls.py:53 | looking up a table name returns that entry's switches |
| GenerateStls.ParamList | generate_stls.py:57-67 | five assignments, six when a density is given: Radius (its text reads back as the radius), SegAng with the angle text, the three switches of the entry in order, and `diverse` last (reading back as the density) |
| GenerateStls.GenerateScadParams | generate_stls.py:51-55 | an error "Unknown configuration: …" is returned iff the name is not in the table |
| GenerateStls.ParamListReadable | generate_stls.py:57-67 | with switch words and decimal numbers, no name or value in the assignment list breaks the quoting: no `=` in a name, no quote anywhere |
| GenerateStls.ScadParamsContent | generate_stls.py:57-69 | read back, the string holds Radius (reading back as the radius), SegAng, and the three switches copied from the chosen entry, in that order. It holds a sixth, `diverse`, last, iff a density is given |
| GenerateStls.OutputFileName | generate_stls.py:136 | the name starts with `r` and ends in `.stl`, and its length is that of the radius text plus the configuration plus six; the round trip below shows what lies between |
| GenerateStls.OutputFileNameRoundTrip | generate_stls.py:136 | `r{radius}_{config}.stl` splits back into exactly its radius and configuration |
| GenerateStls.OutputFileNameInjective | generate_stls.py:230 | two renders share an output name only if radius and configuration are both equal |
| GenerateStls.UsageExampleConfigUnknown | generate_stls.py:161-162 | the configuration in the usage example is not one of the four table names, so argparse's `choices` refuses it; building its parameters would fail as well |
| GenerateStls.GenerateStl | generate_stls.py:73-116 | an unknown configuration is an error raised before any render. Otherwise the result is true iff the process exited with status 0; a non-zero status, a timeout or another exception gives false. It hands back the request it sent: the radius, configuration, angle text and density it was called with, and the output file it was given |
| GenerateStls.GenerateAllConfigs | generate_stls.py:119-143 | tries all 4 configurations once each, in table order, and collects the requests it sent. The i-th request is the radius with the name of the i-th configuration and the angle text and density it was given, and it writes `r{radius}_{config}.stl` for that pair. It returns total 4 and a success count equal to the number of zero-status renders |
| GenerateStls.GenerateRadius | generate_stls.py:228-253 | one radius adds 1 render when a configuration is chosen and 4 otherwise, each with the given angle text and density, counting its successes. The renders and files it reports are the requests its renders were sent, and each file is `r{radius}_{config}.stl` for its render |
| GenerateStls.JobsCount | generate_stls.py:222-253 | the planned renders number radii × (1 when a configuration is chosen, else 4) |
| GenerateStls.JobsRadii | generate_stls.py:222-253 | every planned render is for one of the requested radii |
| GenerateStls.JobsDistinct | generate_stls.py:222-253 | with distinct radii no (radius, configuration) pair is planned twice |
| GenerateStls.JobsSettings | generate_stls.py:228-251 | every planned render receives the command line's angle and density unchanged, and the chosen configuration when there is one, otherwise a table configuration |
| GenerateStls.FileNamesDistinct | generate_stls.py:134-136 | with distinct radii every render writes a different file |
| GenerateStls.FileNamesAppend | generate_stls.py:134-136 | the files of consecutive groups of renders are the files of the first group followed by those of the second |
| GenerateStls.RepeatedRadiusSharesFile | generate_stls.py:166-171 | the radius list is not checked for repeats: a radius given twice renders the same file name twice |
| GenerateStls.RenderRadii | generate_stls.py:219-253 | every planned render is tried once, radius by radius, in order. The renders it reports are built from the requests sent for each radius, and each file is `r{radius}_{config}.stl` for its render. The totals count exactly the planned renders and their zero-status outcomes |
| GenerateStls.RenderNext | generate_stls.py:222-253 | one turn of the loop appends the next radius's renders and files to those before it, and the running totals stay exact: the render count equals the renders so far, the success count equals the zero-status outcomes among them |
| GenerateStls.Run | generate_stls.py:219-262 | every planned render is tried once, in order, whatever earlier renders did. Generated = radii × (1 or 4); successes = zero-status renders ≤ generated; exit status 1 iff some render failed. Every render gets the command line's angle and density, and the chosen configuration if there is one, and writes `r{radius}_{config}.stl` for its own radius and configuration |

## Left out

- The external processes. These are `subprocess.run` of OpenSCAD and of the per-radius generator, the `which openscad` probe and its exit, and the timeouts and return codes. Their effect enters only as the `RenderOutcome` input sequences. They are foreign process calls.
- The shell command strings. This covers `openscad {params} -o '…' '…'` run with `shell=True`, and the argument list of the batch's generator call. Their meaning depends on the shell; the model stops at the parameter string and the file name.
- Python's float formatting of the angle. In the parameter list the angle is an opaque text (`angleText`). The batch angle table is stored in hundredths of a degree, so that its order can be stated.
- argparse, printing, the summary and error text, the dry-run table, `mkdir`, output-directory resolution, and the SCAD-file existence check. These are I/O and command-line surface. Output names are modelled without their directory.
- GenerateStls.Run: requires a chosen configuration to be a table name, because argparse's `choices` rejects anything else before the loop starts. It also accepts an empty radius list, which argparse's `nargs="+"` would reject.
- GenerateStls.ScadParamsContent: requires the angle text to contain no single quote. Python's formatting of a float never produces one.
- Diverse.CalculateDiverse: is defined for integer radii only. For a radius more than about 1.3e154 away from 64, Python raises OverflowError when converting the square to a float; the model returns 1800 there.
- BatchGenerate.RunBatch: 4 files are counted per successful radius, as the source does. Whether the files exist is not checked.
- The OpenSCAD geometry files and their placement arithmetic. They are not part of this model.
- GenerateStls.RenderRadii: the renders and files it reports are the requests `GenerateStl` hands back for each render. That the renderer really wrote the file it was sent is not promised, because the render is a foreign process whose only trace is its outcome.
- GenerateStls.FileNamesDistinct: requires distinct radii. The script accepts a repeated radius (`-r 40 40`) and then renders, and overwrites, the same files again; `GenerateStls.RepeatedRadiusSharesFile` states that case.
