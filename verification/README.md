# previsao-renda: the feature encoder and its completeness gate

The page collects a person's sex, age, education, income type, months in the
current job and whether they own a vehicle and a property. It turns these
into the 19-slot design vector of a log-income linear regression and shows
the predicted income. This project models the two pieces of real logic:

- the encoder inside `previsao_renda`: an intercept, a sex flag, eight
  employment-tenure indicators, three income-type indicators, three
  age-bracket indicators, a higher-education flag and the vehicle and property
  flags, in the fixed order the model's coefficients were fitted on
  (`Layout`, `Encoder`);
- the gate that runs the encoder and model only when every required field is
  informed, and otherwise leaves the displayed income at 0 (`Gate`).

Indicators are the integers 0 and 1; the source uses the floats `1.` and `0.`.
Each one-hot group is an exclusive if/else-if chain in which the income type
"Pensionista" wins over age and tenure. `Brackets` restates the tenure chain
as an ordered table of inclusive month ranges searched first match first. That
table is the independent reference the chain is proved against.

The tenure brackets overlap only at 12 months. The first test accepts 6 to 12
months and the second starts at 12, so 12 months sets the slot named 6-11. All
later ranges (18-23, 24-29, ...) are disjoint from their neighbours.

Every element of `check_params` is a Python `bool`, so the `isinstance` test
in the `any(...)` expression always holds. The gate is therefore "some check is
false" (`Gate.AlgumFalso`).

`Gate.CheckParams` (the list of checks) and `Gate.Params` (the dictionary
handed to the encoder) have no rows of their own: the row for
`Gate.ExisteDadoNaoInformado` states the checks field by field, and the row
for `Gate.CompleteConsultsModel` writes out the record built from the form.

## Model

| member | source | states |
|---|---|---|
| Encoder.Encode | streamlit/index.py:77-97 | the vector has 19 entries, each 0 or 1, and the intercept slot is 1 |
| Encoder.GroupSlots | streamlit/index.py:77-97 | each slot of the tenure, income-type and age groups is 1 exactly when that group's chain chose that slot |
| Encoder.FaixaTempoEmprego | streamlit/index.py:24-48 | a tenure slot is chosen iff the income type is Pensionista or tenure is at least 6 months; the chosen slot lies in the tenure group; the pensioner slot is chosen iff the income type is Pensionista |
| Encoder.TenureExactlyOne | streamlit/index.py:24-48 | the tenure slots sum to 1 for a pensioner or for 6 months or more, and to 0 otherwise |
| Encoder.TenureBracketsAsWritten | streamlit/index.py:35-48 | for a non-pensioner each tenure slot is 1 exactly on its effective month range (6-12, 13-17, 18-23, 24-29, 30-35, 36-41, 42 and up); the pensioner tenure slot is 0 |
| Encoder.TenureTwelveMonths | streamlit/index.py:35-38 | a non-pensioner with 12 months gets the 6-11 slot, not the 12-17 slot |
| Encoder.TipoRenda | streamlit/index.py:50-59 | an income-type slot is chosen iff the income type is Pensionista, Empresário or Servidor público; the chosen slot lies in the income-type group |
| Encoder.IncomeTypeAtMostOne | streamlit/index.py:50-59 | at most one income-type slot is 1; all are 0 iff the income type is none of the three; each slot is 1 iff its income type matches |
| Encoder.FaixaEtaria | streamlit/index.py:61-70 | no age slot is chosen iff a non-pensioner is aged 30 to 59; a chosen slot lies in the age group |
| Encoder.AgeAtMostOne | streamlit/index.py:61-70 | the age slots sum to 1 for a pensioner or an age of at most 29 or at least 60, and to 0 otherwise |
| Encoder.AgeBrackets | streamlit/index.py:61-70 | for a non-pensioner, age at most 29 sets only Jovem, age at least 60 sets only Idoso, ages 30 to 59 set no age slot |
| Encoder.PensionistaPriority | streamlit/index.py:33-66 | for a pensioner the pensioner tenure, income-type and age slots are 1 and every other slot of those three groups is 0 |
| Encoder.PensionistaIgnoresNumbers | streamlit/index.py:33-70 | for a pensioner, changing the age or the months of employment leaves the whole vector unchanged |
| Encoder.InputFlags | streamlit/index.py:20-22 | the sex slot is 1 iff sex is Feminino; the vehicle and property slots are 1 iff their inputs are true |
| Encoder.CursoSuperiorFlag | streamlit/index.py:72-75 | the higher-education slot is 1 iff education is Pós graduação or Superior completo |
| Encoder.ScenarioServidorPublico | streamlit/index.py:19-97 | a male public servant aged 35 with 20 months, higher education and a vehicle gets the 18-23, public-servant, higher-education and vehicle slots and no age slot |
| Brackets.FirstMatch | streamlit/index.py:35-48 | the search returns a bracket containing the months with no earlier bracket containing them, or nothing when no bracket contains them |
| Brackets.ChainIsFirstMatch | streamlit/index.py:35-48 | for a non-pensioner the if/else-if chain selects the same slot as the first-match search of the bracket table |
| Brackets.ChainCovers | streamlit/index.py:35-48 | some bracket contains the months iff they are at least 6 |
| Brackets.OverlapOnlyAtTwelve | streamlit/index.py:35-38 | two brackets contain the same month count iff it is 12 |
| Brackets.LandsInContainingBracket | streamlit/index.py:35-48 | away from 12, a non-pensioner lands in the one bracket whose inclusive range contains the months, and no other bracket contains them |
| Gate.AlgumFalso | streamlit/index.py:159 | the scan is true iff some check is false |
| Gate.ExisteDadoNaoInformado | streamlit/index.py:149-159 | a field counts as not informed iff sex, education or income type is empty, age is not positive or months are negative |
| Gate.ValorRenda | streamlit/index.py:162-175 | when some field is not informed the shown income is 0 |
| Gate.IncompleteIgnoresModel | streamlit/index.py:162-175 | with a field missing, the shown value is 0 whatever the model is, so the model is not consulted |
| Gate.CompleteConsultsModel | streamlit/index.py:165-175 | with every field informed, the shown value is the model applied to the encoding of exactly the form's values |
| Gate.WidgetRangeGate | streamlit/index.py:135-155 | within the widget ranges (age from 18, months 0 to 99) the form is incomplete iff sex, education or income type is empty |

## Left out

- Loading the pickled model (streamlit/index.py:13-15) and `predict` (line 99): an opaque foreign object. With the exponential back-transform (line 100) it becomes the parameter `previsao` of `Gate.ValorRenda`.
- The exponential and the `R$ ...` formatting with ',' as decimal separator (lines 100, 179): floating-point numerics and text formatting.
- Reading `renda.csv` to build the option lists and the maximum age (lines 104-119): file I/O. The form values are arbitrary strings and integers instead.
- Page setup, sidebar widgets and markdown rendering (lines 123-145, 179): user-interface plumbing. `Gate.WidgetRangeGate` takes the widget ranges as its precondition.
- The unused plotting and statistics imports (lines 4-8).
