# Temporal functions of the lazy expression DSL

This project models `TemporalFunction`, a closed set of date/time extractions
used by the lazy query engine. Each one names the field an expression plan
takes from a date/time column: year, ISO year, quarter, month, week, weekday,
day, ordinal day, hour, minute, second, nanosecond, or a timestamp in a given
time unit. The model also covers the canonical text each function displays as.
That text appears in printed expression plans and serves as a key, so the
model proves that the rendering is total, that it always carries the `dt.`
namespace, and that it is collision-free.

All of it is in module `Datetime` (`datetime.dfy`):

- `TemporalFunction` is a datatype with the source's thirteen variants. Twelve
  carry no data. `TimeStamp(tu)` carries a `TimeUnit`. Dafny's structural
  equality matches the derived `PartialEq`/`Eq`.
- `TimeUnit` is defined outside this file. The model gives it the variants
  `Nanoseconds`, `Microseconds` and `Milliseconds` as a modelling choice; no
  lemma depends on how many there are. It does not fix how units print:
  every rendering takes the unit's Display as a parameter `unitText`.
  `UnitTextInjective(unitText)` is the hypothesis that distinct units print
  differently.
- `FieldName` is the inner `match` that picks a data-less variant's short name.
  `Render` is the whole `Display::fmt`: the text that `fmt` writes to its
  formatter, returned as a string.

## Model

| member | source | states |
|---|---|---|
| `Datetime.FieldName` | polars/polars-lazy/src/dsl/function_expr/datetime.rs:27-39 | each of the twelve data-less variants has a fixed, non-empty name made only of lower-case letters and underscores |
| `Datetime.Render` | polars/polars-lazy/src/dsl/function_expr/datetime.rs:24-44 | rendering is defined for every variant, with no precondition and no default arm; every result starts with `dt.` and has more after it; a result contains `(` exactly when the variant is `TimeStamp` |
| `Datetime.Renderings` | polars/polars-lazy/src/dsl/function_expr/datetime.rs:27-42 | the exact text of every variant: `dt.year`, `dt.iso_year`, …, `dt.nanosecond`, and `dt.timestamp(` + the unit's own text + `)` |
| `Datetime.FieldNamesDistinct` | polars/polars-lazy/src/dsl/function_expr/datetime.rs:28-39 | the twelve names are pairwise distinct: two data-less variants have the same name if and only if they are equal |
| `Datetime.DataLessInjective` | polars/polars-lazy/src/dsl/function_expr/datetime.rs:28-42 | two data-less variants render alike if and only if they are equal, whatever the unit text |
| `Datetime.NoCrossCollision` | polars/polars-lazy/src/dsl/function_expr/datetime.rs:28-42 | no data-less variant renders like any timestamp, whatever the unit text |
| `Datetime.TimeStampRenderings` | polars/polars-lazy/src/dsl/function_expr/datetime.rs:40 | `TimeStamp(a)` and `TimeStamp(b)` render alike if and only if units `a` and `b` print alike |
| `Datetime.RenderInjective` | polars/polars-lazy/src/dsl/function_expr/datetime.rs:7-42 | if units print injectively, two temporal functions render alike if and only if they are equal, so the text agrees with the derived structural equality |
| `Datetime.RenderInjectiveIff` | polars/polars-lazy/src/dsl/function_expr/datetime.rs:21-40 | rendering is injective on all temporal functions if and only if units print injectively, so the hypothesis on units is exactly what is needed |

## Left out

- The per-column functions `year` … `nanosecond` and `timestamp` (datetime.rs:46-85) are left out. Each one forwards to a method of the column type (`Series`) and passes its error on unchanged. The date arithmetic, null handling and error conditions all live in that column library, which is not part of this model.
- `TimeUnit`'s Display is not part of this model. The type itself is defined outside this file. The model gives it three variants as a modelling choice, and no lemma depends on how many there are. How a unit prints is the parameter `unitText`, and injectivity is a stated hypothesis (`UnitTextInjective`), not a fact about concrete unit strings.
- The `Formatter` and `write!` mechanics are left out. `Render` returns the string that `fmt` writes. The formatter's own write errors are not modelled.
- The serde derives and imports (datetime.rs:1-2, 6) and the `Hash` derive (datetime.rs:7) are left out. They are code that the compiler and the serialization framework generate.
- Weekday numbering, ISO-year and ISO-week conventions, and timestamp precision checks are left out. They belong to the external column methods.
