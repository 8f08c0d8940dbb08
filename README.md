# Classroom analytics dashboard: suggestion engine, composer and wizard in Dafny

This project models the logic of a teacher's exam-analytics dashboard. All of its data is mock data held in memory.

- **Suggestion engine** (`ActionEngine`, `src/utils/actionEngine.ts`). Six trigger rules run over a class snapshot:
  - an error shared by 30% of the class;
  - a score spread (population variance above 6.25, that is a standard deviation above 2.5);
  - a tag carried by 40% of one performance tier;
  - at-risk students;
  - improved students;
  - a fixed topic-mastery rule.

  Each rule that fires yields one suggestion card. Its text is filled from the rule's context by first-occurrence `{key}` replacement, and the card gets a title, type, label, icon and affected count. The cards are sorted by priority.
- **Message composer** (`ActionComposer`, `src/components/ActionComposer.tsx`). This is a `class Composer` holding the editor state. It covers:
  - message-type detection from the recipients;
  - the template list and template loading;
  - global `{{token}}` filling;
  - the preview;
  - send validation.
- **Three-step wizard** (`ActionFlow`, `src/pages/ActionFlow.tsx`). This is a `class Flow` covering step navigation, student toggling, delivery-method checkboxes and the preview and count fallbacks.
- **Display components.** Each has a threshold classifier plus summary counts or a filtered list:
  - `KnowledgeGapStudent`: deficit severity, the sorted and ranked student list, severity counts;
  - `KnowledgeGapDetail`: question lookup, correct-rate colour, difficulty counts;
  - `ErrorStudentDetail`: error lookup, tag variant and colour, the in-place sort of the shared mock array, example previews, tag counts;
  - `TopicChart`: mastery colour, difficulty colour, the "needs attention" list.

Shared modules:

- `Wrappers`: `Option`.
- `Seqs`:
  - `Array.prototype.filter` as `Filter`, with partition and permutation counting;
  - `find` as `Find` and `FindFirst`;
  - `slice(0, n)` with a "+k more" badge as `Cap`;
  - `FlatMap`.
- `Sorting`: the stable descending `sort((a, b) => b.k - a.k)`. `SortDesc` is its specification, and `InsertionSort` is an in-place array version proved equal to it.
- `Text`:
  - `String.prototype.replace`, first occurrence, with the `$` patterns of replacement strings;
  - global regex replacement;
  - `split('.')[0]`;
  - `trim`;
  - decimal rendering of integers and of `toFixed`.

Modelling conventions:

- Scores, percentages and rates are exact `real`s; counts are `int`.
- `Date.now()` becomes a parameter `now: nat` and appears only in card ids.
- An absent optional value (`context?.errorTag`, `recipient.group`) is the empty string, which JavaScript treats as falsy in exactly the same places.

Where the code and its descriptions disagree, the model follows the code:

- **Card title.** The title is `split('.')[0]`: the text before the first `.`, without the dot, or the whole text when there is no dot (`src/utils/actionEngine.ts:231`).
- **Affected count.** The affected count is the context `count` when it is non-zero. It is otherwise the `students` list length, and otherwise 0 (`src/utils/actionEngine.ts:220-224`). For the class-wide rule `count` is the `count` field of the first error statistic at 30% or more, exactly as the caller supplied it (`src/utils/actionEngine.ts:107-111`). For the group rule it is the number of occurrences of the tag among the tier's students, so a student who lists a tag twice is counted twice (`src/utils/actionEngine.ts:132-144`); neither is necessarily a number of distinct students.
- **Sort order.** The catalog priorities are all distinct. So the output order is fixed by priority alone: 10, 9, 8, 7, 5, 4.
- **"Easy" questions.** The detail modal labels its easy count "> 70%", but counts `correctRate >= 70` (`src/components/KnowledgeGapDetailModal.tsx:286-288`). The model counts `>= 70`, like the colour function.

## Model

| member | source | states |
|---|---|---|
| `ActionEngine.Variance` | src/utils/actionEngine.ts:84-88 | The population variance exists exactly for a non-empty list (an empty list gives NaN) and is never negative. |
| `ActionEngine.SquaredDeviations` | src/utils/actionEngine.ts:86 | The sum of squared deviations is non-negative. |
| `ActionEngine.Scores` | src/utils/actionEngine.ts:117 | The score list has one entry per student, in roster order. |
| `ActionEngine.TierOf` | src/utils/actionEngine.ts:93-96 | A score has exactly one of the four tier positions: 0 iff score ≥ 8, 1 iff 6.5 ≤ score < 8, 2 iff 5 ≤ score < 6.5, 3 iff score < 5. |
| `ActionEngine.TierMembership` | src/utils/actionEngine.ts:91-98 | A student is in tier k iff it is on the roster and its score band is k, so every student is in exactly one tier. |
| `ActionEngine.TierSizes` | src/utils/actionEngine.ts:91-98 | The four tier sizes sum to the roster size. |
| `ActionEngine.FirstSeenMember` | src/utils/actionEngine.ts:132-139 | The tally's keys are exactly the tags that occur. |
| `ActionEngine.FirstSeenDistinct` | src/utils/actionEngine.ts:132-139 | The tally's keys are pairwise distinct, in first-seen order. |
| `ActionEngine.CountTags` | src/utils/actionEngine.ts:133-137 | The `forEach` tally loop leaves, for every tag, its number of occurrences (duplicates on one student count twice), and keys in first-seen order. |
| `ActionEngine.AddTag` | src/utils/actionEngine.ts:135 | One increment keeps the tally exact for the list extended by that tag. |
| `ActionEngine.TallyTier` | src/utils/actionEngine.ts:132-137 | Tallying a tier gives the exact counts of all its members' tags. |
| `ActionEngine.FirstFrequent` | src/utils/actionEngine.ts:139-147 | The entry loop returns the first key, in first-seen order, whose share of the tier is at least 40%. |
| `ActionEngine.GroupErrorMatchSpec` | src/utils/actionEngine.ts:128-148 | The group search finds nothing iff no tier has a 40% tag. A hit lies in a tier all of whose predecessors have none. |
| `ActionEngine.FindGroupError` | src/utils/actionEngine.ts:128-148 | The nested early-return loops over tiers (skipping empty ones) and tags compute the group search result. |
| `ActionEngine.GroupErrorFires` | src/utils/actionEngine.ts:127-149 | `group_specific_error` fires iff some tier has a tag reaching 40%. Its context reports the first such tier and tag, with the count and the rounded percentage (at least 40). |
| `ActionEngine.HasRepeatedTag` | src/utils/actionEngine.ts:156-161 | The per-student tally finds a count ≥ 2 iff some tag occurs at least twice in that student's errors. |
| `ActionEngine.AtRiskStudents` | src/utils/actionEngine.ts:152-162 | The at-risk filter keeps, in roster order, exactly the students with score < 4 and a repeated tag. |
| `ActionEngine.CheckTrigger` | src/utils/actionEngine.ts:101-200 | `checkTrigger` gives, for each rule id, the outcome of its rule, and `met: false` for an unknown id. |
| `ActionEngine.CommonErrorFires` | src/utils/actionEngine.ts:106-114 | `common_error_30_percent` fires iff some error has percentage ≥ 30. Its context holds the tag and count of the first such error in list order. |
| `ActionEngine.VarianceFires` | src/utils/actionEngine.ts:116-125 | `high_score_variance` fires iff the roster is non-empty and the population variance exceeds 6.25. It never fires on an empty roster. |
| `ActionEngine.StdDevThreshold` | src/utils/actionEngine.ts:118-119 | For a non-negative deviation, sd > 2.5 iff sd² > 6.25, so the variance form is the source's test. |
| `ActionEngine.UniformScoresNoSpread` | src/utils/actionEngine.ts:116-125 | When every student has the same score, the spread rule does not fire. |
| `ActionEngine.ConstantVariance` | src/utils/actionEngine.ts:84-88 | A non-empty list of equal values has variance 0. |
| `ActionEngine.StudentsOutcomeSpec` | src/utils/actionEngine.ts:164-184 | A collect-all rule fires iff some student passes. Its list holds exactly the passing students and is a subsequence of the roster. |
| `ActionEngine.AtRiskFires` | src/utils/actionEngine.ts:151-170 | `at_risk_student` fires iff some student is at risk. Its context is the at-risk list in roster order and its length. |
| `ActionEngine.ImprovementFires` | src/utils/actionEngine.ts:172-185 | `significant_improvement` fires iff some student has a previous score and beats the last one by more than 2. Its context is that list and its length. |
| `ActionEngine.Lookup` | src/utils/actionEngine.ts:220-223 | A context lookup returns a value stored under the key, and None iff the key is absent. |
| `ActionEngine.FillSuggestion` | src/utils/actionEngine.ts:214-217 | The replacement loop computes the context-ordered first-occurrence fill of the template. |
| `ActionEngine.FillUntouched` | src/utils/actionEngine.ts:214-217 | A template containing none of the context's `{key}` placeholders is returned unchanged. |
| `ActionEngine.BraceFreeUntouched` | src/utils/actionEngine.ts:214-217 | A template without `{` is never changed by filling. |
| `ActionEngine.FillFirst` | src/utils/actionEngine.ts:216 | Only the first `{key}` occurrence is replaced, and by the key's value. |
| `ActionEngine.TitleOf` | src/utils/actionEngine.ts:231 | The title of `head + value + tail` is the head followed by the value up to its first dot. |
| `ActionEngine.SuggestionType` | src/utils/actionEngine.ts:229-230 | The type is `important` iff the action type is class, `urgent` iff it is individual, otherwise `improvement`. |
| `ActionEngine.LookupTables` | src/utils/actionEngine.ts:247-265 | Labels are distinct across the four known action types. The default label is used exactly for unknown types. The default icon is `book`, and only class and unknown types share an icon. |
| `ActionEngine.CommonErrorCard` | src/utils/actionEngine.ts:106-114 | The class-wide card carries the first critical error's tag inside the text, and that error's count as its affected number. |
| `ActionEngine.CommonErrorTitle` | src/utils/actionEngine.ts:231 | The class-wide card's title ends at the tag's first dot, or with the first sentence. |
| `ActionEngine.VarianceCard` | src/utils/actionEngine.ts:116-125 | The spread card's text is the template itself (it has no placeholder) and it affects 0 students. |
| `ActionEngine.VarianceTitle` | src/utils/actionEngine.ts:231 | The spread card's title is its first sentence without the dot. |
| `ActionEngine.GroupErrorCard` | src/utils/actionEngine.ts:127-149 | The group card has the tier name and tag in their places, and the tag's count as its affected number. |
| `ActionEngine.GroupErrorTitle` | src/utils/actionEngine.ts:231 | The group card's title runs to the tag's first dot. |
| `ActionEngine.AtRiskCard` | src/utils/actionEngine.ts:60 | The at-risk card keeps a literal `{student}`, because the context key is `students`. Its affected number is the length of the at-risk list. |
| `ActionEngine.ImprovementCard` | src/utils/actionEngine.ts:68 | The improvement card keeps a literal `{student}`. Its affected number is the length of the improved list. |
| `ActionEngine.StudentTitle` | src/utils/actionEngine.ts:231 | The individual cards' titles are `{student}` and the first sentence's remainder. |
| `ActionEngine.TopicCard` | src/utils/actionEngine.ts:187-196 | `topic_mastery_high` always fires, with the fixed topic filled in and an affected number of 0. |
| `ActionEngine.TopicTitle` | src/utils/actionEngine.ts:231 | The topic card's title is its first sentence, topic included. |
| `ActionEngine.CollectSuggestions` | src/utils/actionEngine.ts:206-242 | The `forEach`/`push` loop collects one card per firing rule, in catalog order. |
| `ActionEngine.GenerateActionSuggestions` | src/utils/actionEngine.ts:203-245 | `generateActionSuggestions` returns the collected cards stably sorted by descending priority. |
| `ActionEngine.CollectedLength` | src/utils/actionEngine.ts:206-242 | The number of collected cards is the number of firing rules. |
| `ActionEngine.FlatMapStrict` | src/utils/actionEngine.ts:206-244 | Rules with strictly decreasing priorities, each giving at most one card of its own priority, give cards in strictly decreasing priority. |
| `ActionEngine.SuggestionsByPriority` | src/utils/actionEngine.ts:244 | The sorted output equals the cards collected over the catalog in priority order, so its priorities strictly decrease. |
| `ActionEngine.CatalogOrder` | src/utils/actionEngine.ts:32-81 | Sorting the catalog-order cards gives the cards in the order 10, 9, 8, 7, 5, 4. |
| `ActionEngine.SuggestionsCount` | src/utils/actionEngine.ts:203-245 | The output length is the number of firing rules, between 1 and 6. |
| `ActionEngine.TopicCardLast` | src/utils/actionEngine.ts:187-244 | The output is never empty, and its last card is the topic card. |
| `ActionEngine.SuggestionsFromRules` | src/utils/actionEngine.ts:206-244 | A card is in the output iff it is the card of some catalog rule that fires. |
| `ActionEngine.CardFields` | src/utils/actionEngine.ts:227-240 | Every output card comes from a firing rule, field by field: the description is the filled text and the title is its part before the first dot. The id is the rule id with the time suffix. Type, label and icon follow the action type. Priority, trigger rule, affected count and impact come from the rule, and the card is marked as auto-generated. |
| `ActionEngine.OnlyIdsDependOnTime` | src/utils/actionEngine.ts:228 | Two runs at different times differ only in the card ids. |
| `ActionComposer.DetectedType` | src/components/ActionComposer.tsx:85-98 | An empty list keeps the current type. Otherwise: one student gives individual; else all grouped students give group; else any parent gives parent; else class. |
| `ActionComposer.TemplateById` | src/components/ActionComposer.tsx:102 | The lookup returns a catalog template with that id, and None iff no template has it. |
| `ActionComposer.TemplateByOwnId` | src/components/ActionComposer.tsx:41-74 | Looking up a catalog template's own id finds that template. |
| `ActionComposer.OneTemplatePerType` | src/components/ActionComposer.tsx:238-239 | For every message type the filtered template list has exactly one entry. |
| `ActionComposer.AllTokensAreTokens` | src/components/ActionComposer.tsx:115-132 | All nine replaced patterns are brace-delimited `{{name}}` tokens. |
| `ActionComposer.TokensDistinct` | src/components/ActionComposer.tsx:115-132 | The nine tokens are pairwise distinct. |
| `ActionComposer.StepTokens` | src/components/ActionComposer.tsx:114-132 | Every replacement step replaces one of the nine tokens. |
| `ActionComposer.ApplyAllConcat` | src/components/ActionComposer.tsx:111-134 | Running two groups of replacements in a row is running them as one sequence. |
| `ActionComposer.FillRemovesSamples` | src/components/ActionComposer.tsx:128-132 | For any text, context and recipient, no sample token (`percentage`, `score`, `question_number`, `good_points`, `strengths`) is left in the filled text. |
| `ActionComposer.FillRemovesGiven` | src/components/ActionComposer.tsx:114-125 | When the non-empty error tag and topic and the recipient's name and group are each free of `{`, `}` and `$` and contain at least one character outside `[a-z_]` (a capital, digit, space or diacritic, as in every real name), a non-empty error tag or topic removes its token, and a recipient removes both name tokens. |
| `ActionComposer.StepsAvoid` | src/components/ActionComposer.tsx:114-132 | A missing context value contributes no step for its token, and no recipient means no name steps. |
| `ActionComposer.FillKeepsContextTokens` | src/components/ActionComposer.tsx:114-119 | With an empty error tag or topic, that token survives filling. |
| `ActionComposer.FillKeepsRecipientTokens` | src/components/ActionComposer.tsx:122-125 | Without a recipient, `{{student_name}}` and `{{group_name}}` survive filling. |
| `ActionComposer.FillUnchanged` | src/components/ActionComposer.tsx:110-135 | Text containing none of the nine tokens comes back unchanged. |
| `ActionComposer.Ids` | src/components/ActionComposer.tsx:161 | The recipients field is the recipient ids, in order. |
| `ActionComposer.SendResult` | src/components/ActionComposer.tsx:147-173 | Nothing is sent iff the subject or content is blank after trimming. Otherwise the message carries the type, subject, content and the recipient ids in order. |
| `ActionComposer.PreviewShows` | src/components/ActionComposer.tsx:137-145 | Without preview mode or a selected recipient, the raw subject and content are shown. With both, they are filled, so no sample token remains; when the non-empty error tag and topic and the recipient's name and group are each free of `{`, `}` and `$` and contain a character outside `[a-z_]`, neither name token remains either. |
| `ActionComposer.Composer.constructor` | src/components/ActionComposer.tsx:77-98 | The initial state: an empty template, subject and content, preview off, no selected recipient, and the type detected from the recipients with `class` as the default. |
| `ActionComposer.Composer.SetRecipients` | src/components/ActionComposer.tsx:85-98 | New recipients re-run detection from the current type; nothing else changes. |
| `ActionComposer.Composer.ChangeMessageType` | src/components/ActionComposer.tsx:218 | The type select sets the type and nothing else. |
| `ActionComposer.Composer.TemplateChoices` | src/components/ActionComposer.tsx:238-239 | A template is offered iff it is in the catalog and its type is the current message type. |
| `ActionComposer.Composer.SelectTemplate` | src/components/ActionComposer.tsx:100-108 | Choosing a new, non-empty, known template id copies its subject and content into the editor. Any other choice only records the id. |
| `ActionComposer.Composer.EditSubject` | src/components/ActionComposer.tsx:255 | Editing sets the subject and nothing else. |
| `ActionComposer.Composer.EditContent` | src/components/ActionComposer.tsx:266 | Editing sets the content and nothing else. |
| `ActionComposer.Composer.TogglePreview` | src/components/ActionComposer.tsx:274 | The preview flag flips; nothing else changes. |
| `ActionComposer.Composer.ChooseRecipient` | src/components/ActionComposer.tsx:300-303 | The selected recipient becomes the first recipient with the id, or none iff no recipient has it. |
| `ActionComposer.Composer.FillTemplate` | src/components/ActionComposer.tsx:110-135 | The step-by-step reassignment of `filled` computes the specified fill: context tokens if given, recipient tokens if any, then the samples. |
| `ActionComposer.Composer.FillSamples` | src/components/ActionComposer.tsx:128-132 | The five sample replacements extend the filled text by the sample steps. |
| `ActionComposer.Composer.Preview` | src/components/ActionComposer.tsx:137-145 | The preview is the raw pair unless previewing with a selected recipient, when both parts are filled for that recipient. |
| `ActionComposer.Composer.HandleSend` | src/components/ActionComposer.tsx:147-173 | Send validation on the current state: no message iff the subject or content is blank; otherwise the message of the current type to the recipient ids. |
| `ActionFlow.InitialSelectionIs` | src/pages/ActionFlow.tsx:37-44 | The initial selection is the preselected students in roster order: hs002, hs003, hs005. |
| `ActionFlow.Ids` | src/pages/ActionFlow.tsx:93-100 | The id list follows the selection, in order. |
| `ActionFlow.Names` | src/pages/ActionFlow.tsx:430-433 | The name list follows the selection, in order. |
| `ActionFlow.ToggleFlips` | src/pages/ActionFlow.tsx:93-100 | Toggling flips whether the toggled id is selected. |
| `ActionFlow.ToggleKeepsOthers` | src/pages/ActionFlow.tsx:93-100 | Toggling leaves the other students and their order unchanged, and the selection status of every other id. |
| `ActionFlow.ToggleTwice` | src/pages/ActionFlow.tsx:93-100 | Toggling an unselected student twice restores the original selection. |
| `ActionFlow.ToggleDistinct` | src/pages/ActionFlow.tsx:93-100 | Toggling never creates duplicate ids when there were none. |
| `ActionFlow.FilterDistinct` | src/pages/ActionFlow.tsx:96 | Filtering a selection with distinct ids keeps the ids distinct. |
| `ActionFlow.DeliveredShows` | src/pages/ActionFlow.tsx:299-305 | After a checkbox change, the method is present iff it was checked (unchecking removes every copy), and the other methods are unchanged in order. |
| `ActionFlow.RecipientCount` | src/pages/ActionFlow.tsx:475 | The count is the selection size if non-zero, else the option's count, else 0. |
| `ActionFlow.RecipientCountFallback` | src/pages/ActionFlow.tsx:30-35 | With nothing selected, the count is 20 for `all_class`, 14 for `weak_group`, and 0 for any other option id. |
| `ActionFlow.PreviewText` | src/pages/ActionFlow.tsx:386 | The preview shows the custom text if non-empty, else the template's if non-empty, else the default. |
| `ActionFlow.PreviewNeverEmpty` | src/pages/ActionFlow.tsx:386-389 | The preview title and content are never empty, whatever the template id. |
| `ActionFlow.Summary` | src/pages/ActionFlow.tsx:430-439 | The summary shows the first min(6, n) names, and a "+(n−6)" badge iff n > 6. |
| `ActionFlow.Flow.constructor` | src/pages/ActionFlow.tsx:68-75 | The initial wizard state: step 1, `weak_group`, the preselected students, `worksheet_3`, empty custom texts, email and zalo, immediate. |
| `ActionFlow.Flow.HandleNext` | src/pages/ActionFlow.tsx:81-85 | The step stays in 1..3. Next moves up by one below step 3 and is a no-op at 3. |
| `ActionFlow.Flow.HandlePrevious` | src/pages/ActionFlow.tsx:87-91 | The step stays in 1..3. Previous moves down by one above step 1 and is a no-op at 1. |
| `ActionFlow.Flow.HandleStudentToggle` | src/pages/ActionFlow.tsx:93-100 | The selection becomes the toggled selection; nothing else changes. |
| `ActionFlow.Flow.SetDeliveryMethod` | src/pages/ActionFlow.tsx:316-322 | A checkbox appends its method when checked and removes every copy when unchecked; nothing else changes. |
| `ActionFlow.Flow.SidebarCount` | src/pages/ActionFlow.tsx:475 | The sidebar count is the selection size if non-zero, else the chosen option's count. |
| `ActionFlow.Flow.PreviewTitle` | src/pages/ActionFlow.tsx:386 | The preview title is never empty and is the custom title when one is given. |
| `ActionFlow.Flow.PreviewContent` | src/pages/ActionFlow.tsx:389 | The preview content is never empty and is the custom content when given. |
| `KnowledgeGapStudent.LabelsDistinct` | src/components/KnowledgeGapStudentModal.tsx:36-40 | The three severity labels are distinct. |
| `KnowledgeGapStudent.SeverityLevel` | src/components/KnowledgeGapStudentModal.tsx:36-40 | Critical iff deficit ≥ 80, needs practice iff 60 ≤ deficit < 80, needs reminder iff deficit < 60. |
| `KnowledgeGapStudent.SortedStudents` | src/components/KnowledgeGapStudentModal.tsx:53 | The sorted list is in descending deficit order and a permutation of the students. Students with equal deficits keep their order, and the input is untouched. |
| `KnowledgeGapStudent.RankOrder` | src/components/KnowledgeGapStudentModal.tsx:102-112 | Rank labels run 1..n down the sorted list, deficits never increase down it, and rank 1 has the largest deficit. |
| `KnowledgeGapStudent.SummaryOf` | src/components/KnowledgeGapStudentModal.tsx:227-241 | The three counts sum to the number of students. Each count is the number of students whose severity is that band. |
| `KnowledgeGapStudent.SummaryBands` | src/components/KnowledgeGapStudentModal.tsx:227-241 | The source's three threshold filters partition the list and coincide with the severity bands. |
| `KnowledgeGapDetail.QuestionDetails` | src/components/KnowledgeGapDetailModal.tsx:128 | A known topic id gives its mock question list; an unknown one gives the empty list. |
| `KnowledgeGapDetail.MockTopics` | src/components/KnowledgeGapDetailModal.tsx:40-123 | The mock table knows exactly topic_1 to topic_5, each with at least one question. |
| `KnowledgeGapDetail.CorrectRateColour` | src/components/KnowledgeGapDetailModal.tsx:130-134 | Success iff rate ≥ 70, warning iff 50 ≤ rate < 70, danger iff rate < 50. |
| `KnowledgeGapDetail.SummaryOf` | src/components/KnowledgeGapDetailModal.tsx:274-286 | The three counts sum to the question count. Each is the number of questions of that colour. |
| `KnowledgeGapDetail.UnknownTopicEmpty` | src/components/KnowledgeGapDetailModal.tsx:128 | An unknown topic shows no questions and all-zero counts. |
| `ErrorStudentDetail.StudentErrors` | src/components/ErrorStudentDetailModal.tsx:142 | A known error id gives its mock student list; an unknown one gives the empty list. |
| `ErrorStudentDetail.TagVariant` | src/components/ErrorStudentDetailModal.tsx:144-148 | Severe iff count > 3, practice iff 2 < count ≤ 3, reminder iff count ≤ 2. |
| `ErrorStudentDetail.TagsDistinct` | src/components/ErrorStudentDetailModal.tsx:144-148 | The three variant labels are distinct. |
| `ErrorStudentDetail.TagColours` | src/components/ErrorStudentDetailModal.tsx:150-157 | The three labels get three distinct colours. The fallback colour is used exactly for other labels, and every variant is coloured. |
| `ErrorStudentDetail.NewMockStore` | src/components/ErrorStudentDetailModal.tsx:36-137 | The shared mock store holds one fresh array per error id, with the mock contents. |
| `ErrorStudentDetail.RenderStudents` | src/components/ErrorStudentDetailModal.tsx:195-197 | Rendering sorts the looked-up shared array in place into the stable descending order of its old contents. It shows that order, shows nothing for an unknown id, and leaves every other array unchanged. |
| `ErrorStudentDetail.RenderOrder` | src/components/ErrorStudentDetailModal.tsx:195-197 | The render order is a permutation in descending error count, stable among equal counts. Rendering again changes nothing. |
| `ErrorStudentDetail.ExamplesPreview` | src/components/ErrorStudentDetailModal.tsx:234-243 | The first min(2, n) examples are shown, with a "+(n−2)" note iff n > 2. |
| `ErrorStudentDetail.SummaryOf` | src/components/ErrorStudentDetailModal.tsx:284-292 | The three counts sum to the list length. Each is the number of students with that tag variant. |
| `ErrorStudentDetail.SummaryAfterSort` | src/components/ErrorStudentDetailModal.tsx:195-292 | The counts are the same before and after the in-place sort. |
| `TopicChart.DifficultyColours` | src/components/TopicChart.tsx:16-23 | The three difficulties get distinct non-fallback colours, and every other string gets the fallback. |
| `TopicChart.MasteryColourOf` | src/components/TopicChart.tsx:25-29 | Success iff mastery ≥ 80, warning iff 60 ≤ mastery < 80, danger iff mastery < 60. |
| `TopicChart.AttentionList` | src/components/TopicChart.tsx:73-77 | A topic is listed iff it is a topic whose mastery colour is danger. The list is a subsequence of the topics, so it is no longer. |
| `TopicChart.AttentionBounds` | src/components/TopicChart.tsx:73-77 | Every topic below 60 is listed. |
| `TopicChart.NoAttentionNeeded` | src/components/TopicChart.tsx:73-77 | The list is empty exactly when every topic is at 60 or more, in particular for no topics at all. |
| `Sorting.InsertionSort` | src/components/ErrorStudentDetailModal.tsx:196 | The in-place array sort leaves the array equal to the stable descending sort of its old contents. |
| `Sorting.InsertLast` | src/components/ErrorStudentDetailModal.tsx:196 | Inserting the next element into the sorted prefix gives the specified insertion, and the rest of the array is untouched. |
| `Sorting.SortDescSorted` | src/components/KnowledgeGapStudentModal.tsx:53 | The sort's result is in descending key order. |
| `Sorting.SortDescPermutes` | src/components/KnowledgeGapStudentModal.tsx:53 | The sort's result is a permutation of its input. |
| `Sorting.SortDescStable` | src/components/KnowledgeGapStudentModal.tsx:53 | Elements with equal keys keep their relative order. |
| `Sorting.SortDescIdempotent` | src/components/ErrorStudentDetailModal.tsx:196 | Sorting a sorted list changes nothing, so re-rendering finds the shared array already in order. |
| `Sorting.SortedUnique` | src/utils/actionEngine.ts:244 | Two sorted permutations of each other with distinct keys are equal, so distinct priorities fix the output order. |
| `Seqs.FilterMember` | src/components/TopicChart.tsx:74 | An element survives `filter` iff it was in the list and passes the test. |
| `Seqs.FilterIsSubsequence` | src/components/TopicChart.tsx:74 | `filter` keeps input order. |
| `Seqs.FilterPartition3` | src/components/KnowledgeGapStudentModal.tsx:227-241 | Three mutually exclusive, exhaustive filters have counts summing to the list length. |
| `Seqs.FilterCountPermutation` | src/components/KnowledgeGapStudentModal.tsx:227-241 | A filter count is the same on any permutation of the list. |
| `Seqs.FindFirst` | src/utils/actionEngine.ts:107 | `find` returns the first index whose element passes, and none iff none passes. |
| `Seqs.Cap` | src/pages/ActionFlow.tsx:430-439 | `slice(0, cap)` shows a prefix of length min(n, cap); the hidden count is the rest and is positive iff n > cap. |
| `Text.IndexOf` | src/utils/actionEngine.ts:216 | The search returns the first occurrence at or after the start, and none iff there is none. |
| `Text.ReplaceFirstAfterBraceFree` | src/utils/actionEngine.ts:216 | With a `$`-free value, `replace` on a string pattern swaps the first occurrence for the value. |
| `Text.ReplaceAllNoOccurrence` | src/components/ActionComposer.tsx:115-132 | After a global replacement with a safe value, the token no longer occurs. |
| `Text.ReplaceAllKeeps` | src/components/ActionComposer.tsx:115-132 | A global replacement of one token leaves every other token's occurrence in place. |
| `Text.Before` | src/utils/actionEngine.ts:231 | `split('.')[0]` is the longest dot-free prefix, ending at the first dot or at the end. |
| `Text.TrimEmptyIff` | src/components/ActionComposer.tsx:148 | `trim()` is empty iff every character is JavaScript whitespace. |
| `Text.NatToString` | src/utils/actionEngine.ts:216 | `String(n)` is a non-empty digit string without a leading zero, whose value is n. |
| `Text.RoundHalfUp` | src/utils/actionEngine.ts:144 | `toFixed(0)` of a percentage is the integer within one half of it. |
| `Text.RoundSqrtFrom` | src/utils/actionEngine.ts:122 | The rounded root m satisfies (m − ½)² ≤ w < (m + ½)². This gives `toFixed(2)` of the standard deviation. |
| `Text.Hundredths` | src/utils/actionEngine.ts:122 | The two-decimal rendering has a dot before two digits, and the digits spell the hundredths value. |

## Left out
- ActionEngine.CountTags, ActionEngine.TallyTier, ActionEngine.FirstFrequent, ActionEngine.HasRepeatedTag, KnowledgeGapDetail.QuestionDetails, ErrorStudentDetail.StudentErrors: tags and question numbers are map keys here, but the source counts them in plain JavaScript objects, where a key that names an `Object.prototype` property (`constructor`, `toString`, …) or `__proto__` behaves differently (an inherited function as the starting tally, a NaN percentage, a `__proto__` entry that is never listed, a function returned instead of an empty list). Such keys are assumed absent from real data.

- Rendering, Tailwind class strings, icons, dialogs, tabs, charts and toasts. This includes the toasts in `handleSend` of both the composer and the wizard, and the `onSend`/`onClose` callbacks. The composer's send is modelled as the message it would pass to `onSend`, or None when validation fails.
- The `getGroupColor` helpers of the wizard and the modals, and the mastery colour of the modal headers: these are styling without logic beyond a lookup.
- `Date.now()` and `new Date().toISOString()`. The time is a parameter `now` used only in ids, and the message timestamp is not modelled.
- Floating point:
  - Scores are exact reals.
  - The variance test is `variance > 6.25` instead of `Math.sqrt(variance) > 2.5`.
  - `toFixed` is exact round-half-up on reals. Binary rounding of values like x.xx5 is not modelled.
- `Object.entries` and `Object.values` list keys in first-seen order. JavaScript's reordering of integer-like keys is not modelled.
- `useEffect` scheduling:
  - The recipient effect is `SetRecipients`, called when the recipients prop changes.
  - The template effect runs only when the selected id changes. So selecting the same id again does not reload the template, as in React.
- `ActionComposer.Composer.ChooseRecipient`: the recipient select is only rendered in preview mode with more than one recipient. The handler itself is modelled for every state.
- The composer's unused `studentNames` context field, and the optional `attachments` of the templates.
- The wizard's other setters: the recipient-type select, the template select, the custom title and content, and the schedule type. Each is a plain field assignment; `selectedRecipientType` and `selectedTemplate` are read by `SidebarCount` and `PreviewTitle`. The "save draft" and "schedule" buttons do nothing in the source and are not modelled.
- The wizard's `handleSend` only shows a toast with the selection size.
- `mockClassData` is not used as a test input: nothing in this model is executed.
- The render sort of `ErrorStudentDetail` runs on each render of the dialog. The model runs it once per call of `RenderStudents`.
- `ActionEngine.CheckTrigger`: the variance context string is modelled by `SqrtToFixed2`, exact round-half-up of the real square root to two decimals. The binary value of `Math.sqrt` is not modelled.
